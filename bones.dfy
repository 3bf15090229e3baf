/**
 * The humanoid rig's bone names and the child-to-parent table
 * (`_boneHierarchy`) that describes its kinematic chains.
 */
module Bones {
  import opened Wrappers

  datatype Side = Left | Right

  /** Bones on the rig's midline. */
  datatype MidBone = Hips | Spine | Chest | UpperChest | Neck | Head | Jaw

  /** Bones that come in a left and a right copy. */
  datatype Limb =
    | Eye
    | UpperLeg | LowerLeg | Foot | Toes
    | Shoulder | UpperArm | LowerArm | Hand
    | ThumbMetacarpal | ThumbProximal | ThumbDistal
    | IndexProximal | IndexIntermediate | IndexDistal
    | MiddleProximal | MiddleIntermediate | MiddleDistal
    | RingProximal | RingIntermediate | RingDistal
    | LittleProximal | LittleIntermediate | LittleDistal

  /**
   * The 55 humanoid bone names of a VRM 1.0 rig (`VRMHumanBoneName`): a
   * midline bone, or a side and a limb (`Sided(Left, UpperArm)` is
   * `leftUpperArm`).
   */
  datatype Bone = Mid(mid: MidBone) | Sided(side: Side, limb: Limb)

  function Opposite(s: Side): (o: Side)
    ensures o != s
  {
    match s
    case Left => Right
    case Right => Left
  }

  /** The same bone on the other side of the rig; midline bones are their own mirror. */
  function Mirror(b: Bone): (m: Bone)
    ensures m.Mid? <==> b.Mid?
    ensures b.Mid? ==> m == b
    ensures b.Sided? ==> m.limb == b.limb && m.side != b.side
  {
    match b
    case Mid(_) => b
    case Sided(s, l) => Sided(Opposite(s), l)
  }

  lemma MirrorInvolution(b: Bone)
    ensures Mirror(Mirror(b)) == b
  {
  }

  /** The child-to-parent table. Bones without an entry are the roots of their chains. */
  const BoneHierarchy: map<Bone, Bone> := map[
    Mid(Spine) := Mid(Hips),
    Mid(Neck) := Mid(Spine),
    Mid(Head) := Mid(Neck),
    Sided(Left, UpperArm) := Sided(Left, Shoulder),
    Sided(Left, LowerArm) := Sided(Left, UpperArm),
    Sided(Left, Hand) := Sided(Left, LowerArm),
    Sided(Right, UpperArm) := Sided(Right, Shoulder),
    Sided(Right, LowerArm) := Sided(Right, UpperArm),
    Sided(Right, Hand) := Sided(Right, LowerArm),
    Sided(Left, UpperLeg) := Mid(Hips),
    Sided(Left, LowerLeg) := Sided(Left, UpperLeg),
    Sided(Left, Foot) := Sided(Left, LowerLeg),
    Sided(Right, UpperLeg) := Mid(Hips),
    Sided(Right, LowerLeg) := Sided(Right, UpperLeg),
    Sided(Right, Foot) := Sided(Right, LowerLeg)
  ]

  /** The limbs whose bones the table gives a parent, on either side. */
  predicate IsMappedLimb(l: Limb) {
    l in {UpperArm, LowerArm, Hand, UpperLeg, LowerLeg, Foot}
  }

  /** The bones at which the table's chains end. */
  predicate IsChainRoot(b: Bone) {
    b == Mid(Hips) || b == Sided(Left, Shoulder) || b == Sided(Right, Shoulder)
  }

  /** Looking a bone up in the table. */
  function Parent(b: Bone): (p: Option<Bone>)
    ensures p.Some? <==> (b.Mid? && b.mid in {Spine, Neck, Head}) || (b.Sided? && IsMappedLimb(b.limb))
    ensures p.Some? ==> p.value.Mid? || (b.Sided? && p.value.Sided? && p.value.side == b.side)
  {
    if b in BoneHierarchy then
      Some(BoneHierarchy[b])
    else
      assert b.Sided? ==> b == Sided(b.side, b.limb) && (b.side == Left || b.side == Right);
      None
  }

  /**
   * The level of a bone along its chain: 0 at a chain's root, one more for
   * each link. It is the measure on which following parent links terminates.
   */
  function Rank(b: Bone): nat {
    match b
    case Mid(Spine) => 1
    case Mid(Neck) => 2
    case Mid(Head) => 3
    case Mid(_) => 0
    case Sided(_, UpperArm) => 1
    case Sided(_, UpperLeg) => 1
    case Sided(_, LowerArm) => 2
    case Sided(_, LowerLeg) => 2
    case Sided(_, Hand) => 3
    case Sided(_, Foot) => 3
    case Sided(_, _) => 0
  }

  /** Every entry of the table goes exactly one level down. */
  lemma ParentLowersRank(b: Bone)
    requires b in BoneHierarchy
    ensures Rank(BoneHierarchy[b]) + 1 == Rank(b)
  {
  }

  /** No bone is its own parent. */
  lemma NoSelfParent(b: Bone)
    ensures Parent(b) != Some(b)
  {
  }

  /**
   * The bones met by following parent links from `b`, nearest first, up to
   * the first bone that has no entry.
   */
  function Chain(b: Bone): (c: seq<Bone>)
    decreases Rank(b)
    ensures |c| == Rank(b) <= 3
    ensures |c| == 0 <==> b !in BoneHierarchy
    ensures |c| > 0 ==> c[0] == BoneHierarchy[b]
    ensures forall i :: 0 <= i < |c| - 1 ==> c[i] in BoneHierarchy && BoneHierarchy[c[i]] == c[i + 1]
    ensures |c| > 0 ==> c[|c| - 1] !in BoneHierarchy && IsChainRoot(c[|c| - 1])
    ensures forall i :: 0 <= i < |c| ==> Rank(c[i]) < Rank(b)
  {
    if b in BoneHierarchy then
      ParentLowersRank(b);
      [BoneHierarchy[b]] + Chain(BoneHierarchy[b])
    else
      assert b.Sided? ==> b == Sided(b.side, b.limb) && (b.side == Left || b.side == Right);
      []
  }

  /** The bone at which following parent links from `b` stops. */
  function Root(b: Bone): (r: Bone)
    decreases Rank(b)
    ensures r !in BoneHierarchy
    ensures b in BoneHierarchy ==> IsChainRoot(r)
    ensures b !in BoneHierarchy ==> r == b
    ensures Rank(r) <= Rank(b)
    ensures b.Sided? && b.limb in {UpperArm, LowerArm, Hand} ==> r == Sided(b.side, Shoulder)
    ensures b in BoneHierarchy && !(b.Sided? && b.limb in {UpperArm, LowerArm, Hand}) ==> r == Mid(Hips)
  {
    if b in BoneHierarchy then
      ParentLowersRank(b);
      Root(BoneHierarchy[b])
    else
      assert b.Sided? ==> b == Sided(b.side, b.limb) && (b.side == Left || b.side == Right);
      b
  }

  /** Along a chain every bone sits strictly above the previous one. */
  lemma {:induction false} RanksDecrease(c: seq<Bone>, i: nat, j: nat)
    requires forall k :: 0 <= k < |c| - 1 ==> c[k] in BoneHierarchy && BoneHierarchy[c[k]] == c[k + 1]
    requires i < j < |c|
    ensures Rank(c[j]) < Rank(c[i])
    decreases j - i
  {
    ParentLowersRank(c[i]);
    if i + 1 < j {
      RanksDecrease(c, i + 1, j);
    }
  }

  /** The chain never returns to a bone it has passed: the table is acyclic. */
  lemma {:induction false} ChainAcyclic(b: Bone)
    ensures b !in Chain(b)
    ensures forall i, j :: 0 <= i < j < |Chain(b)| ==> Chain(b)[i] != Chain(b)[j]
  {
    var c := Chain(b);
    forall i, j | 0 <= i < j < |c| ensures c[i] != c[j] {
      RanksDecrease(c, i, j);
    }
  }

  /** The chain ends at `Root`. */
  lemma {:induction false} ChainEndsAtRoot(b: Bone)
    ensures |Chain(b)| > 0 ==> Chain(b)[|Chain(b)| - 1] == Root(b)
    decreases Rank(b)
  {
    if b in BoneHierarchy {
      ParentLowersRank(b);
      ChainEndsAtRoot(BoneHierarchy[b]);
    }
  }

  /** Mirroring the rig commutes with looking up a parent. */
  lemma MirrorParent(b: Bone)
    ensures Parent(Mirror(b)) == Parent(b).Map(Mirror)
  {
  }

  function MirrorAll(s: seq<Bone>): (r: seq<Bone>)
    ensures |r| == |s|
    ensures forall i :: 0 <= i < |s| ==> r[i] == Mirror(s[i])
  {
    if s == [] then [] else [Mirror(s[0])] + MirrorAll(s[1..])
  }

  /** The chain of the mirrored bone is the mirrored chain. */
  lemma {:induction false} MirrorChain(b: Bone)
    ensures Chain(Mirror(b)) == MirrorAll(Chain(b))
    decreases Rank(b)
  {
    MirrorParent(b);
    if b in BoneHierarchy {
      var p := BoneHierarchy[b];
      ParentLowersRank(b);
      MirrorChain(p);
      assert Mirror(b) in BoneHierarchy && BoneHierarchy[Mirror(b)] == Mirror(p);
    }
  }
}
