/** The physics body the controls drive, and the collision events it reports. */
module Physics {
  import opened Geometry

  /**
   * The externally owned rigid body. The physics engine steps its position;
   * the controls write its velocity and read its position.
   */
  class Body {
    const id: nat
    var position: Vec3
    var velocity: Vec3

    constructor (id: nat, position: Vec3)
      ensures this.id == id && this.position == position && velocity == Zero
    {
      this.id := id;
      this.position := position;
      velocity := Zero;
    }
  }

  /** A contact between bodies `bi` and `bj` (by id) with normal `ni`, as the engine reports it. */
  datatype Contact = Contact(bi: nat, bj: nat, ni: Vec3)

  /** The contact normal turned to point out of what the player touched. */
  function OutwardNormal(c: Contact, player: nat): (n: Vec3)
    ensures c.bi == player ==> n.x == -c.ni.x && n.y == -c.ni.y && n.z == -c.ni.z
    ensures c.bi != player ==> n == c.ni
  {
    if c.bi == player then Negate(c.ni) else c.ni
  }

  /**
   * A contact that makes jumping possible: its outward normal points more
   * than half up. In terms of the reported normal, its Y component is below
   * -0.5 when the player is `bi` and above 0.5 otherwise.
   */
  predicate IsGroundContact(c: Contact, player: nat)
    ensures IsGroundContact(c, player) <==> (if c.bi == player then c.ni.y < -0.5 else c.ni.y > 0.5)
  {
    Dot(OutwardNormal(c, player), UpAxis) > 0.5
  }
}
