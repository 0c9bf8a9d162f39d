/**
 Versioned assistant profiles (db/agent_profiles.py).  Each method is one transaction; the rows of a
 company are kept in insertion order.
 */
module AgentProfiles {
  import opened Common

  datatype Lifecycle = Draft | Validated | Tested | Published | Superseded | RolledBack

  /** `profile` and `policy` stand for the two JSON documents. */
  datatype Row = Row(version: int, state: Lifecycle, profile: int, policy: int)

  datatype Error = UnsupportedTransition | NotFound | NotAllowed

  // ---- Statements --------------------------------------------------------------------------

  /** COALESCE(MAX(version), 0) + 1 reads this. */
  function MaxVersion(rows: seq<Row>): int {
    if rows == [] then 0 else Max(MaxVersion(rows[..|rows| - 1]), rows[|rows| - 1].version)
  }

  function RowsOf(table: map<string, seq<Row>>, company: string): seq<Row> {
    if company in table then table[company] else []
  }

  /** UPDATE ... SET lifecycle_state = 'superseded' WHERE lifecycle_state = 'published'. */
  function Supersede(rows: seq<Row>): (r: seq<Row>)
    ensures |r| == |rows|
    ensures forall i :: 0 <= i < |rows| ==> r[i] == if rows[i].state.Published? then rows[i].(state := Superseded) else rows[i]
  {
    seq(|rows|, i requires 0 <= i < |rows| => if rows[i].state.Published? then rows[i].(state := Superseded) else rows[i])
  }

  function SetState(rows: seq<Row>, version: int, state: Lifecycle): (r: seq<Row>)
    ensures |r| == |rows|
    ensures forall i :: 0 <= i < |rows| ==> r[i] == if rows[i].version == version then rows[i].(state := state) else rows[i]
  {
    seq(|rows|, i requires 0 <= i < |rows| => if rows[i].version == version then rows[i].(state := state) else rows[i])
  }

  /** The row of exactly this version. */
  function FindVersion(rows: seq<Row>, version: int): (r: Option<Row>)
    ensures r.Some? ==> r.value in rows && r.value.version == version
    ensures r.None? ==> forall row :: row in rows ==> row.version != version
  {
    if rows == [] then None
    else if rows[|rows| - 1].version == version then Some(rows[|rows| - 1])
    else FindVersion(rows[..|rows| - 1], version)
  }

  /** The published row of the highest version. */
  function FindPublished(rows: seq<Row>): (r: Option<Row>)
    ensures r.Some? ==> r.value in rows && r.value.state.Published?
    ensures r.None? ==> forall row :: row in rows ==> !row.state.Published?
    ensures r.Some? ==> forall row :: row in rows && row.state.Published? ==> row.version <= r.value.version
  {
    if rows == [] then None
    else
      var earlier := FindPublished(rows[..|rows| - 1]);
      var last := rows[|rows| - 1];
      if last.state.Published? && (earlier.None? || earlier.value.version <= last.version) then Some(last) else earlier
  }

  function SavedRows(rows: seq<Row>, profile: int, policy: int, published: bool): seq<Row> {
    (if published then Supersede(rows) else rows)
    + [Row(MaxVersion(rows) + 1, if published then Published else Draft, profile, policy)]
  }

  function TransitionError(rows: seq<Row>, version: int, target: Lifecycle, allowed: Option<set<Lifecycle>>): Option<Error> {
    if !(target.Validated? || target.Tested? || target.Published? || target.RolledBack?) then Some(UnsupportedTransition)
    else if FindVersion(rows, version).None? then Some(NotFound)
    else
      var current := FindVersion(rows, version).value.state;
      if (allowed.Some? && current !in allowed.value) || current == target then Some(NotAllowed) else None
  }

  function TransitionedRows(rows: seq<Row>, version: int, target: Lifecycle, allowed: Option<set<Lifecycle>>): seq<Row> {
    if TransitionError(rows, version, target, allowed).Some? then rows
    else SetState(if target.Published? then Supersede(rows) else rows, version, target)
  }

  lemma {:induction false} MaxVersionIsTheMaximum(rows: seq<Row>)
    ensures forall row :: row in rows ==> row.version <= MaxVersion(rows)
    ensures rows == [] ==> MaxVersion(rows) == 0
  {
    if rows != [] {
      MaxVersionIsTheMaximum(rows[..|rows| - 1]);
    }
  }

  class ProfileTable {
    var table: map<string, seq<Row>>

    constructor ()
      ensures table == map[]
    {
      table := map[];
    }

    method SaveVersion(company: string, profile: int, policy: int, published: bool) returns (version: int)
      modifies this
      ensures version == MaxVersion(RowsOf(old(table), company)) + 1
      ensures table == old(table)[company := SavedRows(RowsOf(old(table), company), profile, policy, published)]
      ensures var was, rows := RowsOf(old(table), company), RowsOf(table, company);
              && |rows| == |was| + 1 && rows[|was|] == Row(version, if published then Published else Draft, profile, policy)
              && (forall row :: row in was ==> row.version < version)
              && forall i :: 0 <= i < |was| ==> rows[i] == if published && was[i].state.Published? then was[i].(state := Superseded) else was[i]
    {
      var rows := if company in table then table[company] else [];
      var newest := 0;
      for i := 0 to |rows|
        invariant newest == MaxVersion(rows[..i]) && table == old(table)
      {
        assert rows[..i + 1][..i] == rows[..i];
        newest := Max(newest, rows[i].version);
      }
      assert rows[..|rows|] == rows;
      version := newest + 1;
      MaxVersionIsTheMaximum(rows);
      if published {
        rows := Supersede(rows);
      }
      table := table[company := rows + [Row(version, if published then Published else Draft, profile, policy)]];
    }

    method Transition(company: string, version: int, target: Lifecycle, allowed: Option<set<Lifecycle>>)
      returns (error: Option<Error>)
      modifies this
      ensures error == TransitionError(RowsOf(old(table), company), version, target, allowed)
      ensures RowsOf(table, company) == TransitionedRows(RowsOf(old(table), company), version, target, allowed)
      ensures forall other :: other != company ==> RowsOf(table, other) == RowsOf(old(table), other)
      ensures error == Some(UnsupportedTransition) <==> target.Draft? || target.Superseded?
      ensures error == Some(NotFound) <==>
                !target.Draft? && !target.Superseded? && forall row :: row in RowsOf(old(table), company) ==> row.version != version
      ensures error == Some(NotAllowed) ==>
                exists row :: row in RowsOf(old(table), company) && row.version == version
                              && (row.state == target || (allowed.Some? && row.state !in allowed.value))
      ensures error.Some? ==> table == old(table)
      ensures error.None? ==>
                var was, rows := RowsOf(old(table), company), RowsOf(table, company);
                && (exists row :: row in was && row.version == version && row.state != target
                                  && (allowed.Some? ==> row.state in allowed.value))
                && |rows| == |was|
                && forall i :: 0 <= i < |was| ==>
                     rows[i] == if was[i].version == version then was[i].(state := target)
                                else if target.Published? && was[i].state.Published? then was[i].(state := Superseded)
                                else was[i]
    {
      if !(target in {Validated, Tested, Published, RolledBack}) {
        return Some(UnsupportedTransition);
      }
      var rows := if company in table then table[company] else [];
      var row := FindVersion(rows, version);
      if row.None? {
        return Some(NotFound);
      }
      if allowed.Some? && row.value.state !in allowed.value {
        return Some(NotAllowed);
      }
      if row.value.state == target {
        return Some(NotAllowed);
      }
      if target == Published {
        rows := Supersede(rows);
      }
      table := table[company := SetState(rows, version, target)];
      error := None;
    }
  }

  // ---- What every statement keeps ------------------------------------------------------------

  /** Versions are 1..n in order, and at most one row is published. */
  ghost predicate WellNumbered(rows: seq<Row>) {
    && (forall i :: 0 <= i < |rows| ==> rows[i].version == i + 1)
    && (forall i, j :: 0 <= i < j < |rows| ==> !(rows[i].state.Published? && rows[j].state.Published?))
  }

  /** `later` still has every row of `rows`, with the same version, profile and policy. */
  ghost predicate Immutable(rows: seq<Row>, later: seq<Row>) {
    && |rows| <= |later|
    && forall i :: 0 <= i < |rows| ==>
         later[i].version == rows[i].version && later[i].profile == rows[i].profile && later[i].policy == rows[i].policy
  }

  lemma {:induction false} MaxVersionIsTheCount(rows: seq<Row>)
    requires forall i :: 0 <= i < |rows| ==> rows[i].version == i + 1
    ensures MaxVersion(rows) == |rows|
  {
    if rows != [] {
      MaxVersionIsTheCount(rows[..|rows| - 1]);
    }
  }

  lemma SaveKeeps(rows: seq<Row>, profile: int, policy: int, published: bool)
    requires WellNumbered(rows)
    ensures WellNumbered(SavedRows(rows, profile, policy, published)) && Immutable(rows, SavedRows(rows, profile, policy, published))
  {
    MaxVersionIsTheCount(rows);
  }

  lemma TransitionKeeps(rows: seq<Row>, version: int, target: Lifecycle, allowed: Option<set<Lifecycle>>)
    requires WellNumbered(rows)
    ensures WellNumbered(TransitionedRows(rows, version, target, allowed))
    ensures Immutable(rows, TransitionedRows(rows, version, target, allowed))
  {
  }

  /** A successful publication leaves exactly the requested version published. */
  lemma PublishingReplacesThePublishedVersion(rows: seq<Row>, version: int, allowed: Option<set<Lifecycle>>)
    requires WellNumbered(rows) && TransitionError(rows, version, Published, allowed).None?
    ensures var later := FindPublished(TransitionedRows(rows, version, Published, allowed));
            later.Some? && later.value.version == version
            && exists row :: row in rows && row.version == version && row.profile == later.value.profile && row.policy == later.value.policy
  {
    var row := FindVersion(rows, version).value;
    var i :| 0 <= i < |rows| && rows[i] == row;
    var after := TransitionedRows(rows, version, Published, allowed);
    assert after[i].state.Published? && after[i].version == version;
    var found := FindPublished(after).value;
    var j :| 0 <= j < |after| && after[j] == found;
    assert j == i;
  }
}
