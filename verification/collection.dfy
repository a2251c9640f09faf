/** A collection of sources: an ordered list of references that can be
    extended, whose field is the sum of its members' fields, and that is
    moved or rotated by forwarding one transform to every member.

    The list holds references: the same source may occur several times,
    and each occurrence counts once in the sum and receives the transform
    once. */
module Collections {
  import opened Vectors
  import opened Wrappers
  import opened Frames
  import opened Magnets

  /** No source occurs twice in `ss`. */
  predicate Distinct(ss: seq<Source>) {
    forall i, j :: 0 <= i < j < |ss| ==> ss[i] != ss[j]
  }

  /** The list of the members' fields at `p`, member by member. */
  function FieldsAt(ss: seq<Source>, rot: Rotation, p: Vec3): (fs: seq<Vec3>)
    reads ss
    ensures |fs| == |ss|
    ensures forall i :: 0 <= i < |ss| ==> fs[i] == ss[i].GetB(rot, p)
  {
    if ss == [] then [] else [ss[0].GetB(rot, p)] + FieldsAt(ss[1..], rot, p)
  }

  /** The total field of the members of `ss` at `p`, summed in list order. */
  function SumFields(ss: seq<Source>, rot: Rotation, p: Vec3): Vec3
    reads ss
  {
    Sum(FieldsAt(ss, rot, p))
  }

  /** The fields of a concatenation are the concatenated fields. */
  lemma FieldsAtConcat(a: seq<Source>, b: seq<Source>, rot: Rotation, p: Vec3)
    ensures FieldsAt(a + b, rot, p) == FieldsAt(a, rot, p) + FieldsAt(b, rot, p)
  {
  }

  /** Adding one source to the end adds exactly its field to the total. */
  lemma AppendAddsField(ss: seq<Source>, s: Source, rot: Rotation, p: Vec3)
    ensures SumFields(ss + [s], rot, p) == Add(SumFields(ss, rot, p), s.GetB(rot, p))
  {
    FieldsAtConcat(ss, [s], rot, p);
    assert FieldsAt([s], rot, p) == [s.GetB(rot, p)];
    SumAppend(FieldsAt(ss, rot, p), s.GetB(rot, p));
  }

  /** Members that all give the same field `b` at `p` give `|ss|` times `b`
      together, whether they are one source held several times or separate
      sources with equal parameters and pose. */
  lemma EqualFieldsScale(ss: seq<Source>, b: Vec3, rot: Rotation, p: Vec3)
    requires forall i :: 0 <= i < |ss| ==> ss[i].GetB(rot, p) == b
    ensures SumFields(ss, rot, p) == Scale(|ss| as real, b)
  {
    assert FieldsAt(ss, rot, p) == seq(|ss|, _ => b);
    SumOfCopies(b, |ss|);
  }

  /** The same source held `k` times gives `k` times its field. */
  lemma CopiesScaleField(s: Source, k: nat, rot: Rotation, p: Vec3)
    ensures SumFields(seq(k, _ => s), rot, p) == Scale(k as real, s.GetB(rot, p))
  {
    EqualFieldsScale(seq(k, _ => s), s.GetB(rot, p), rot, p);
  }

  /** Taking the member at `j` out of the list takes its field out of the
      total. */
  lemma RemoveOneField(ts: seq<Source>, j: nat, rot: Rotation, p: Vec3)
    requires j < |ts|
    ensures SumFields(ts, rot, p) == Add(SumFields(ts[..j] + ts[j + 1..], rot, p), ts[j].GetB(rot, p))
  {
    var b := ts[j].GetB(rot, p);
    assert ts == ts[..j] + [ts[j]] + ts[j + 1..];
    FieldsAtConcat(ts[..j] + [ts[j]], ts[j + 1..], rot, p);
    FieldsAtConcat(ts[..j], [ts[j]], rot, p);
    FieldsAtConcat(ts[..j], ts[j + 1..], rot, p);
    assert FieldsAt([ts[j]], rot, p) == [b];
    var fa, fb := FieldsAt(ts[..j], rot, p), FieldsAt(ts[j + 1..], rot, p);
    SumConcat(fa + [b], fb);
    SumAppend(fa, b);
    SumConcat(fa, fb);
  }

  /** The total field does not depend on the order of the members. */
  lemma {:induction false} PermutationSameField(ss: seq<Source>, ts: seq<Source>, rot: Rotation, p: Vec3)
    requires multiset(ss) == multiset(ts)
    ensures SumFields(ss, rot, p) == SumFields(ts, rot, p)
    decreases |ss|
  {
    if ss == [] {
      assert |ts| == |multiset(ts)| == 0;
    } else {
      var n := |ss| - 1;
      var last := ss[n];
      assert ss == ss[..n] + [last];
      assert last in multiset(ts);
      var j :| 0 <= j < |ts| && ts[j] == last;
      var rest := ts[..j] + ts[j + 1..];
      assert ts == ts[..j] + [last] + ts[j + 1..];
      assert multiset(ss[..n]) == multiset(ss) - multiset{last};
      assert multiset(rest) == multiset(ts) - multiset{last};
      PermutationSameField(ss[..n], rest, rot, p);
      AppendAddsField(ss[..n], last, rot, p);
      RemoveOneField(ts, j, rot, p);
    }
  }

  /** How many times `s` occurs in `ss`. */
  function Occurrences(ss: seq<Source>, s: Source): nat {
    if ss == [] then 0
    else Occurrences(ss[..|ss| - 1], s) + if ss[|ss| - 1] == s then 1 else 0
  }

  /** `Occurrences` is the multiplicity of `s` in the multiset of `ss`. */
  lemma {:induction false} OccurrencesIsMultiplicity(ss: seq<Source>, s: Source)
    ensures Occurrences(ss, s) == multiset(ss)[s]
  {
    if ss != [] {
      var n := |ss| - 1;
      assert ss == ss[..n] + [ss[n]];
      OccurrencesIsMultiplicity(ss[..n], s);
    }
  }

  /** In a list without repeats, every member occurs exactly once. */
  lemma {:induction false} DistinctOccursOnce(ss: seq<Source>, s: Source)
    requires Distinct(ss) && s in ss
    ensures Occurrences(ss, s) == 1
  {
    var n := |ss| - 1;
    if ss[n] == s {
      assert s !in ss[..n];
      OccurrencesIsMultiplicity(ss[..n], s);
    } else {
      DistinctOccursOnce(ss[..n], s);
    }
  }

  /** `pos` moved by `d`, `k` times in a row. */
  function MovedTimes(pos: Vec3, d: Vec3, k: nat): Vec3 {
    if k == 0 then pos else Add(MovedTimes(pos, d, k - 1), d)
  }

  /** The pose after the same rotation is applied `k` times in a row. */
  function RotatedTimes(law: RotateLaw, pose: Pose, angle: real, axis: Vec3, anchor: Option<Vec3>,
                        k: nat): Pose
  {
    if k == 0 then pose
    else RotateStep(law, RotatedTimes(law, pose, angle, axis, anchor, k - 1), angle, axis, anchor)
  }

  /** Moving `k` times by `d` is one move by `k` times `d`. */
  lemma {:induction false} MovedTimesScale(pos: Vec3, d: Vec3, k: nat)
    ensures MovedTimes(pos, d, k) == Add(pos, Scale(k as real, d))
  {
    if k > 0 {
      MovedTimesScale(pos, d, k - 1);
    }
  }

  class Collection {
    var sources: seq<Source>

    /** A collection of the given sources, in argument order, repeats kept. */
    constructor (members: seq<Source>)
      ensures sources == members
    {
      sources := [];
      new;
      for i := 0 to |members|
        invariant sources == members[..i]
      {
        sources := sources + [members[i]];
      }
    }

    /** Append `source` at the end; nothing already held moves. */
    method AddSource(source: Source)
      modifies this
      ensures sources == old(sources) + [source]
    {
      sources := sources + [source];
    }

    /** The total field at `p`: the sum over the members, in list order, of
        each member's field; the zero vector for an empty collection. */
    function GetB(rot: Rotation, p: Vec3): (b: Vec3)
      reads this, sources
      ensures sources == [] ==> b == Zero
      ensures sources != [] ==>
                b == Add(SumFields(sources[..|sources| - 1], rot, p), sources[|sources| - 1].GetB(rot, p))
    {
      if sources == [] then Zero
      else
        var n := |sources| - 1;
        assert sources == sources[..n] + [sources[n]];
        AppendAddsField(sources[..n], sources[n], rot, p);
        SumFields(sources, rot, p)
    }

    /** Move every member by `d`. A source held `k` times is moved `k`
        times; only positions change, and the list itself does not. */
    method Move(d: Vec3)
      modifies sources
      ensures sources == old(sources)
      ensures forall s :: s in sources ==>
                s.position == Add(old(s.position), Scale(Occurrences(sources, s) as real, d))
      ensures forall s :: s in sources ==>
                s.angle == old(s.angle) && s.axis == old(s.axis) &&
                s.magnetization == old(s.magnetization) && s.dimension == old(s.dimension)
      ensures Distinct(sources) ==> forall s :: s in sources ==> s.position == Add(old(s.position), d)
    {
      var i := 0;
      while i < |sources|
        invariant 0 <= i <= |sources|
        invariant forall s :: s in sources ==>
                    s.position == MovedTimes(old(s.position), d, Occurrences(sources[..i], s))
        invariant forall s :: s in sources ==>
                    s.angle == old(s.angle) && s.axis == old(s.axis) &&
                    s.magnetization == old(s.magnetization) && s.dimension == old(s.dimension)
      {
        assert sources[..i + 1] == sources[..i] + [sources[i]];
        sources[i].Move(d);
        i := i + 1;
      }
      assert sources[..i] == sources;
      forall s | s in sources
        ensures s.position == Add(old(s.position), Scale(Occurrences(sources, s) as real, d))
      {
        MovedTimesScale(old(s.position), d, Occurrences(sources, s));
      }
      if Distinct(sources) {
        forall s | s in sources ensures Occurrences(sources, s) == 1 {
          DistinctOccursOnce(sources, s);
        }
      }
    }

    /** Rotate every member by the same `angle`, `axis` and `anchor` (an
        absent anchor means each member's own current position). A source
        held `k` times is rotated `k` times; magnetization and shape do not
        change, and neither does the list. */
    method Rotate(law: RotateLaw, angle: real, axis: Vec3, anchor: Option<Vec3> := None)
      modifies sources
      ensures sources == old(sources)
      ensures forall s :: s in sources ==>
                s.CurrentPose() == RotatedTimes(law, old(s.CurrentPose()), angle, axis, anchor, Occurrences(sources, s))
      ensures forall s :: s in sources ==>
                s.magnetization == old(s.magnetization) && s.dimension == old(s.dimension)
      ensures Distinct(sources) ==> forall s :: s in sources ==>
                s.CurrentPose() == RotateStep(law, old(s.CurrentPose()), angle, axis, anchor)
    {
      var i := 0;
      while i < |sources|
        invariant 0 <= i <= |sources|
        invariant forall s :: s in sources ==>
                    s.CurrentPose() == RotatedTimes(law, old(s.CurrentPose()), angle, axis, anchor, Occurrences(sources[..i], s))
        invariant forall s :: s in sources ==>
                    s.magnetization == old(s.magnetization) && s.dimension == old(s.dimension)
      {
        var t := sources[i];
        assert sources[..i + 1] == sources[..i] + [t];
        t.Rotate(law, angle, axis, anchor);
        i := i + 1;
      }
      assert sources[..i] == sources;
      if Distinct(sources) {
        forall s | s in sources ensures Occurrences(sources, s) == 1 {
          DistinctOccursOnce(sources, s);
        }
      }
    }
  }

  /** Building a collection from one source and adding two more, the total
      after each step is the previous total plus the new source's field. */
  method RunningTotals(rot: Rotation, pm1: Source, pm2: Source, pm3: Source, p: Vec3)
    returns (b1: Vec3, b2: Vec3, b3: Vec3)
    ensures b1 == pm1.GetB(rot, p)
    ensures b2 == Add(b1, pm2.GetB(rot, p))
    ensures b3 == Add(b2, pm3.GetB(rot, p))
  {
    var col := new Collection([pm1]);
    b1 := col.GetB(rot, p);
    col.AddSource(pm2);
    b2 := col.GetB(rot, p);
    col.AddSource(pm3);
    b3 := col.GetB(rot, p);
  }
}
