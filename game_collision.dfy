/**
 * The platformer's collision classification (MonoDreams.Examples/Collision/GameCollisionHelper.cs):
 * the kind of a collision depends only on the EntityInfo type strings of the two entities.
 */
module GameCollision {
  import opened Wrappers
  import opened Vectors

  datatype CollisionType = Physics | Collectible | Damage | Dialogue | NPCInteraction

  /** A CollisionMessage; entities are their ids. */
  datatype CollisionMessage = CollisionMessage(
    entity: nat, target: nat, contactPoint: Vec2, contactNormal: Vec2, contactTime: real, layer: int,
    collisionType: CollisionType)

  /** The switch on the entity's type, guarded by the target's type. */
  function DetermineCollisionType(entityType: string, targetType: string): (r: CollisionType)
    ensures r == Collectible <==> entityType == "Player" && targetType == "Collectible"
    ensures r == Damage <==> entityType == "Player" && targetType == "Projectile"
    ensures r == Dialogue <==> entityType == "Player" && targetType == "Zone"
    ensures r == NPCInteraction <==> entityType == "Player" && targetType == "NPCZone"
  {
    if entityType == "Player" && targetType == "Collectible" then Collectible
    else if entityType == "Player" && targetType == "Projectile" then Damage
    else if entityType == "Player" && targetType == "Zone" then Dialogue
    else if entityType == "Player" && targetType == "NPCZone" then NPCInteraction
    else Physics
  }

  /**
   * Create: the message carries the inputs unchanged and the classified type. `entityTypes` holds
   * the EntityInfo.Type of each entity that has an EntityInfo component; Entity.Get throws for an
   * entity without one.
   */
  function Create(entity: nat, target: nat, contactPoint: Vec2, contactNormal: Vec2, contactTime: real,
                  layer: int, entityTypes: map<nat, string>): (m: Outcome<CollisionMessage>)
    ensures m.Thrown? <==> entity !in entityTypes || target !in entityTypes
    ensures m.Returned? ==>
              m.value.entity == entity && m.value.target == target &&
              m.value.contactPoint == contactPoint && m.value.contactNormal == contactNormal &&
              m.value.contactTime == contactTime && m.value.layer == layer &&
              m.value.collisionType == DetermineCollisionType(entityTypes[entity], entityTypes[target])
  {
    if entity !in entityTypes || target !in entityTypes then Thrown
    else
      var collisionType := DetermineCollisionType(entityTypes[entity], entityTypes[target]);
      Returned(CollisionMessage(entity, target, contactPoint, contactNormal, contactTime, layer, collisionType))
  }

  /** Only a Player ever collides as anything but Physics. */
  lemma OnlyPlayerIsSpecial(entityType: string, targetType: string)
    requires entityType != "Player"
    ensures DetermineCollisionType(entityType, targetType) == Physics
  {
  }

  /** The table is one-to-one: each special collision type comes from exactly one target type. */
  lemma SpecialTypeDeterminesTarget(entityType: string, t1: string, t2: string)
    requires DetermineCollisionType(entityType, t1) == DetermineCollisionType(entityType, t2)
    requires DetermineCollisionType(entityType, t1) != Physics
    ensures t1 == t2
  {
  }

  /** The classification is directed: swapping the two entities of a special collision gives Physics. */
  lemma ClassificationIsDirected(entityType: string, targetType: string)
    requires DetermineCollisionType(entityType, targetType) != Physics
    ensures DetermineCollisionType(targetType, entityType) == Physics
  {
  }
}
