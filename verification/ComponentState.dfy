/** Versioned component state: template seeds write version 1 of a port, the trigger on execution outputs
    writes the version after the component's highest, and the latest state is the highest version, the
    later row winning a tie. */
module ComponentState {
  import opened Basics

  /** Rows in the order of their creation; their artifacts are never tombstoned here. */
  datatype Version = Version(component: Id, port: Id, number: nat, artifact: Id)

  type Versions = seq<Version>

  datatype Write =
    | Seed(component: Id, port: Id, artifact: Id)
    /** An output row: it is a state row when it has no event and its port is a state port of the
        artifact's schema. */
    | Output(component: Id, port: Id, artifact: Id, published: bool, statePort: bool)

  /** `max(version_number)` over all ports of a component, 0 without versions. */
  function Top(vs: Versions, c: Id): nat {
    if |vs| == 0 then 0
    else
      var rest := Top(vs[..|vs| - 1], c);
      var last := vs[|vs| - 1];
      if last.component == c && last.number > rest then last.number else rest
  }

  predicate Taken(vs: Versions, c: Id, port: Id, number: nat) {
    exists i :: 0 <= i < |vs| && vs[i].component == c && vs[i].port == port && vs[i].number == number
  }

  /** `createInitialVersionIdempotently`. */
  function SeedVersion(vs: Versions, c: Id, port: Id, artifact: Id): Versions {
    if Taken(vs, c, port, 1) then vs else vs + [Version(c, port, 1, artifact)]
  }

  predicate WritesState(w: Write, c: Id) { w.Output? && w.component == c && !w.published && w.statePort }

  /** The trigger `record_execution_component_state_version`. */
  function RecordVersion(vs: Versions, w: Write): Versions
    requires w.Output?
  {
    if WritesState(w, w.component) then vs
                                        + [Version(w.component, w.port, Top(vs, w.component) + 1, w.artifact)] else vs
  }

  function Apply(vs: Versions, w: Write): Versions {
    match w
    case Seed(c, port, artifact) => SeedVersion(vs, c, port, artifact)
    case Output(_, _, _, _, _) => RecordVersion(vs, w)
  }

  function Run(vs: Versions, ws: seq<Write>): Versions {
    if |ws| == 0 then vs else Apply(Run(vs, ws[..|ws| - 1]), ws[|ws| - 1])
  }

  /** `readLatestState`: the row, by its place. */
  function Latest(vs: Versions, c: Id): (i: Option<nat>)
    ensures i.Some? ==> i.value < |vs| && vs[i.value].component == c
  {
    if |vs| == 0 then None
    else
      var best := Latest(vs[..|vs| - 1], c);
      var last := vs[|vs| - 1];
      if last.component == c && (best.None? || vs[best.value].number <= last.number) then Some(|vs| - 1) else best
  }

  // ---------------------------------------------------------------- the rows

  /** The unique constraint, and positive numbers. */
  ghost predicate Valid(vs: Versions) {
    && (forall i :: 0 <= i < |vs| ==> vs[i].number > 0)
    && forall i, j :: 0 <= i < j < |vs| && vs[i].component == vs[j].component && vs[i].port == vs[j].port ==>
       vs[i].number != vs[j].number
  }

  lemma {:induction false} TopBounds(vs: Versions, c: Id)
    ensures forall i :: 0 <= i < |vs| && vs[i].component == c ==> vs[i].number <= Top(vs, c)
    ensures Top(vs, c) > 0 ==> exists i :: 0 <= i < |vs| && vs[i].component == c && vs[i].number == Top(vs, c)
  {
    if |vs| > 0 {
      var init := vs[..|vs| - 1];
      TopBounds(init, c);
      if Top(vs, c) > 0 {
        if Top(init, c) == Top(vs, c) {
          var i :| 0 <= i < |init| && init[i].component == c && init[i].number == Top(init, c);
          assert vs[i].number == Top(vs, c);
        } else {
          assert vs[|vs| - 1].number == Top(vs, c);
        }
      }
    }
  }

  lemma Added(vs: Versions, v: Version, c: Id)
    ensures Top(vs + [v], c) == (if v.component == c && v.number > Top(vs, c) then v.number else Top(vs, c))
    ensures var best := Latest(vs, c);
            Latest(vs + [v], c) == (if v.component == c
                                    && (best.None? || vs[best.value].number <= v.number) then Some(|vs|) else best)
  {
    assert (vs + [v])[..|vs|] == vs;
  }

  /** The latest row carries the highest number. */
  lemma {:induction false} LatestIsTop(vs: Versions, c: Id)
    requires Valid(vs)
    ensures Latest(vs, c).Some? <==> Top(vs, c) > 0
    ensures Latest(vs, c).Some? ==> vs[Latest(vs, c).value].number == Top(vs, c)
  {
    if |vs| > 0 { LatestIsTop(vs[..|vs| - 1], c); }
  }

  lemma ApplyValid(vs: Versions, w: Write)
    requires Valid(vs)
    ensures Valid(Apply(vs, w))
    ensures |vs| <= |Apply(vs, w)| && Apply(vs, w)[..|vs|] == vs
  {
    if w.Output? { TopBounds(vs, w.component); }
  }

  lemma {:induction false} RunValid(vs: Versions, ws: seq<Write>)
    requires Valid(vs)
    ensures Valid(Run(vs, ws)) && |vs| <= |Run(vs, ws)| && Run(vs, ws)[..|vs|] == vs
  {
    if |ws| > 0 {
      RunValid(vs, ws[..|ws| - 1]);
      ApplyValid(Run(vs, ws[..|ws| - 1]), ws[|ws| - 1]);
    }
  }

  // ---------------------------------------------------------------- the main results

  /** A state-writing output raises the highest version of its component by exactly one, becomes the
      latest state, and leaves other components alone. */
  lemma StateWriteRaises(vs: Versions, w: Write, c: Id)
    requires Valid(vs) && w.Output? && WritesState(w, w.component)
    ensures Top(Apply(vs, w), w.component) == Top(vs, w.component) + 1
    ensures Latest(Apply(vs, w), w.component) == Some(|vs|) && Apply(vs, w)[|vs|].artifact == w.artifact
    ensures c != w.component ==> Top(Apply(vs, w), c) == Top(vs, c) && Latest(Apply(vs, w), c) == Latest(vs, c)
  {
    var v := Version(w.component, w.port, Top(vs, w.component) + 1, w.artifact);
    Added(vs, v, w.component);
    Added(vs, v, c);
    LatestIsTop(vs, w.component);
  }

  /** Where the row of a state write stands in what follows: it is the latest row, and its number is the
      highest, as long as `hidden` does not hold. */
  ghost predicate Standing(vs: Versions, row: nat, c: Id, port: Id, number: nat, hidden: bool) {
    && Valid(vs) && row < |vs| && vs[row].component == c && vs[row].port == port && vs[row].number == number
    && Top(vs, c) == number
    && (if hidden then number == 1 && Latest(vs, c).Some? && Latest(vs, c).value > row else Latest(vs, c) == Some(row))
    && (!hidden && number == 1 ==> forall i :: 0 <= i < |vs| && vs[i].component == c ==> i == row)
  }

  lemma SeedStands(vs: Versions, row: nat, c: Id, port: Id, number: nat, hidden: bool, w: Write)
    requires Standing(vs, row, c, port, number, hidden) && !WritesState(w, c)
    ensures Standing(Apply(vs, w), row, c, port, number, hidden
                     || (number == 1 && w.Seed? && w.component == c && w.port != port))
  {
    ApplyValid(vs, w);
    TopBounds(vs, c);
    LatestIsTop(vs, c);
    if Apply(vs, w) != vs {
      var v := Apply(vs, w)[|vs|];
      assert Apply(vs, w) == vs + [v];
      Added(vs, v, c);
      if v.component == c { assert v.number == 1 && w.Seed?; }
    }
  }

  /** Seeds of other ports of the component among the writes. */
  ghost predicate SeedsElsewhere(ws: seq<Write>, c: Id, port: Id) {
    exists i :: 0 <= i < |ws| && ws[i].Seed? && ws[i].component == c && ws[i].port != port
  }

  lemma {:induction false} RunStands(vs: Versions, row: nat, c: Id, port: Id, number: nat, ws: seq<Write>)
    requires Standing(vs, row, c, port, number, false) && forall i :: 0 <= i < |ws| ==> !WritesState(ws[i], c)
    ensures Standing(Run(vs, ws), row, c, port, number, number == 1 && SeedsElsewhere(ws, c, port))
  {
    hide Standing, Apply;
    if |ws| > 0 {
      var init, w := ws[..|ws| - 1], ws[|ws| - 1];
      RunStands(vs, row, c, port, number, init);
      SeedStands(Run(vs, init), row, c, port, number, number == 1 && SeedsElsewhere(init, c, port), w);
      SeedsNext(ws, c, port);
    }
  }

  lemma SeedsNext(ws: seq<Write>, c: Id, port: Id)
    requires |ws| > 0
    ensures SeedsElsewhere(ws, c, port) <==>
              SeedsElsewhere(ws[..|ws| - 1], c, port)
              || (ws[|ws| - 1].Seed? && ws[|ws| - 1].component == c && ws[|ws| - 1].port != port)
  {
    if SeedsElsewhere(ws[..|ws| - 1], c, port) {
      var i :| 0 <= i < |ws| - 1 && ws[..|ws| - 1][i].Seed? && ws[..|ws| - 1][i].component == c
        && ws[..|ws| - 1][i].port != port;
      assert ws[i].Seed? && ws[i].component == c && ws[i].port != port;
    }
    if SeedsElsewhere(ws, c, port) {
      var i :| 0 <= i < |ws| && ws[i].Seed? && ws[i].component == c && ws[i].port != port;
      if i < |ws| - 1 { assert ws[..|ws| - 1][i] == ws[i]; }
    }
  }

  /** The exact condition for the latest state to be that of the most recent state write: the component
      had a version before it, or no other port of the component is seeded after it. */
  lemma LatestIsLastWriteIff(before: seq<Write>, w: Write, after: seq<Write>)
    requires w.Output? && WritesState(w, w.component) && forall i :: 0 <= i < |after| ==>
             !WritesState(after[i], w.component)
    ensures var vs := Run([], before);
            var all := Run(Apply(vs, w), after);
            && |vs| < |all| && all[|vs|].artifact == w.artifact
            && (Latest(all, w.component) == Some(|vs|)
                <==> Top(vs, w.component) > 0 || !SeedsElsewhere(after, w.component, w.port))
  {
    var vs := Run([], before);
    RunValid([], before);
    ApplyValid(vs, w);
    StateWriteRaises(vs, w, w.component);
    TopBounds(vs, w.component);
    RunStands(Apply(vs, w), |vs|, w.component, w.port, Top(vs, w.component) + 1, after);
    RunValid(Apply(vs, w), after);
    assert Run(Apply(vs, w), after)[..|vs| + 1][|vs|] == Apply(vs, w)[|vs|];
  }

  /** A seed of another port after a component's first state write hides that write. */
  lemma SeedHidesFirstWrite(c: Id, port: Id, other: Id, written: Id, seeded: Id)
    requires port != other
    ensures var vs := Run([], [Output(c, port, written, false, true), Seed(c, other, seeded)]);
            Latest(vs, c).Some? && vs[Latest(vs, c).value].artifact == seeded && Top(vs, c) == 1
  {
    var ws := [Output(c, port, written, false, true), Seed(c, other, seeded)];
    assert ws[..1][..0] == [] && ws[..1] == [ws[0]];
    assert Run([], ws[..1]) == [Version(c, port, 1, written)];
    assert Run([], ws) == [Version(c, port, 1, written), Version(c, other, 1, seeded)];
    Added([Version(c, port, 1, written)], Version(c, other, 1, seeded), c);
    Added([], Version(c, port, 1, written), c);
    assert [Version(c, port, 1, written)] == [] + [Version(c, port, 1, written)];
    assert Run([], ws) == [Version(c, port, 1, written)] + [Version(c, other, 1, seeded)];
  }

  // ---------------------------------------------------------------- as it runs

  class Repository {
    var versions: Versions

    constructor ()
      ensures versions == []
    {
      versions := [];
    }

    method CreateInitialVersion(c: Id, port: Id, artifact: Id) returns (created: bool)
      modifies this
      ensures versions == SeedVersion(old(versions), c, port, artifact) && created == !Taken(old(versions), c, port, 1)
    {
      created := true;
      for i := 0 to |versions|
        invariant versions == old(versions) && created == !Taken(versions[..i], c, port, 1)
      {
        assert versions[..i + 1] == versions[..i] + [versions[i]];
        if versions[i].component == c && versions[i].port == port && versions[i].number == 1 {
          created := false;
        }
        TakenNext(versions, i, c, port);
      }
      assert versions[..|versions|] == versions;
      if created {
        versions := versions + [Version(c, port, 1, artifact)];
      }
    }

    /** The trigger after an output row was inserted. */
    method AfterOutput(w: Write)
      requires w.Output?
      modifies this
      ensures versions == RecordVersion(old(versions), w)
    {
      if w.published || !w.statePort {
        return;
      }
      var highest := 0;
      for i := 0 to |versions|
        invariant versions == old(versions) && highest == Top(versions[..i], w.component)
      {
        assert versions[..i + 1][..i] == versions[..i];
        if versions[i].component == w.component && versions[i].number > highest {
          highest := versions[i].number;
        }
      }
      assert versions[..|versions|] == versions;
      versions := versions + [Version(w.component, w.port, highest + 1, w.artifact)];
    }

    method ReadLatest(c: Id) returns (artifact: Option<Id>)
      ensures artifact == (if Latest(versions, c).Some? then Some(versions[Latest(versions, c).value].artifact)
              else None)
    {
      var best: Option<nat> := None;
      for i := 0 to |versions|
        invariant best == Latest(versions[..i], c)
      {
        assert versions[..i + 1][..i] == versions[..i];
        if versions[i].component == c && (best.None? || versions[best.value].number <= versions[i].number) {
          best := Some(i);
        }
      }
      assert versions[..|versions|] == versions;
      artifact := if best.Some? then Some(versions[best.value].artifact) else None;
    }
  }

  lemma TakenNext(vs: Versions, i: nat, c: Id, port: Id)
    requires i < |vs|
    ensures Taken(vs[..i + 1], c, port, 1)
            <==> Taken(vs[..i], c, port, 1) || (vs[i].component == c && vs[i].port == port && vs[i].number == 1)
  {
    if Taken(vs[..i], c, port, 1) {
      var j :| 0 <= j < i && vs[..i][j].component == c && vs[..i][j].port == port && vs[..i][j].number == 1;
      assert vs[..i + 1][j] == vs[..i][j];
    }
    if Taken(vs[..i + 1], c, port, 1) {
      var j :| 0 <= j < i + 1 && vs[..i + 1][j].component == c && vs[..i + 1][j].port == port
        && vs[..i + 1][j].number == 1;
      if j < i { assert vs[..i][j] == vs[..i + 1][j]; }
    }
    assert vs[..i + 1][i] == vs[i];
  }
}
