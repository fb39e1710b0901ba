/** Collision categories of the physics bodies, as 32-bit category bit masks.
    A contact between two bodies is classified by OR-ing their two masks. */
module PhysicsCategories {

  /** A body's `categoryBitMask` (an unsigned 32-bit integer). */
  type Mask = bv32

  const None: Mask := 0
  const Rocket: Mask := 0x1
  const Asteroid: Mask := 0x1 << 1
  const Bottom: Mask := 0x1 << 2

  /** The mask of the one contact that scores: the ground touching an asteroid. */
  const ScoringMask: Mask := Bottom | Asteroid

  /** The masks the game assigns to bodies (or leaves as the default). */
  predicate IsCategory(m: Mask) {
    m == None || m == Rocket || m == Asteroid || m == Bottom
  }

  /** Exactly one bit of `m` is set. */
  predicate SingleBit(m: Mask) {
    m != 0 && m & (m - 1) == 0
  }

  /** The mask a contact is classified by: the OR of both bodies' categories. */
  function ContactMask(a: Mask, b: Mask): (m: Mask)
    ensures m & !(a | b) == 0
  {
    a | b
  }

  /** The contact mask holds both categories; with ContactMask's own contract, it has
      exactly their bits. */
  lemma ContactMaskContainsBoth(a: Mask, b: Mask)
    ensures ContactMask(a, b) & a == a && ContactMask(a, b) & b == b
  {
  }

  /** A contact scores exactly when its OR-ed mask equals ground|asteroid.
      Between bodies that carry one of the game's categories this is exactly
      the ground–asteroid pair, in either order. */
  function IsScoringContact(a: Mask, b: Mask): (r: bool)
    ensures IsCategory(a) && IsCategory(b) ==>
              (r <==> (a == Bottom && b == Asteroid) || (a == Asteroid && b == Bottom))
    ensures r ==> a & Rocket == 0 && b & Rocket == 0
  {
    ContactMask(a, b) == ScoringMask
  }

  /** `none` is zero and every other category is a single bit: 1, 2 and 4. */
  lemma CategoryValues()
    ensures None == 0 && Rocket == 1 && Asteroid == 2 && Bottom == 4
    ensures SingleBit(Rocket) && SingleBit(Asteroid) && SingleBit(Bottom)
    ensures Rocket != Asteroid && Asteroid != Bottom && Rocket != Bottom
  {
  }

  /** The three real categories are pairwise disjoint, and none of them overlaps `none`. */
  lemma CategoriesDisjoint()
    ensures Rocket & Asteroid == 0 && Rocket & Bottom == 0 && Asteroid & Bottom == 0
    ensures None & Rocket == 0 && None & Asteroid == 0 && None & Bottom == 0
  {
  }

  /** The three possible pair masks are 6, 3 and 5, so only ground–asteroid matches the scoring mask. */
  lemma PairMasksDistinct()
    ensures ContactMask(Bottom, Asteroid) == 6 == ScoringMask
    ensures ContactMask(Rocket, Asteroid) == 3 && ContactMask(Rocket, Bottom) == 5
    ensures !IsScoringContact(Rocket, Asteroid) && !IsScoringContact(Asteroid, Rocket)
    ensures !IsScoringContact(Rocket, Bottom) && !IsScoringContact(Bottom, Rocket)
  {
  }

  /** Which body is `bodyA` and which is `bodyB` does not affect the classification. */
  lemma ContactMaskSymmetric(a: Mask, b: Mask)
    ensures ContactMask(a, b) == ContactMask(b, a)
    ensures IsScoringContact(a, b) == IsScoringContact(b, a)
  {
  }
}
