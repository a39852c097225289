/** The paths of `git status --porcelain=v1 -z`: every staged, unstaged, deleted, untracked or renamed path. */
module Porcelain {
  import opened Wrappers

  /** One status line; a rename or copy also names the path it comes from. */
  datatype Entry = Entry(x: char, y: char, path: string, origin: Option<string>)

  const NUL: char := 0 as char

  predicate Renamed(x: char, y: char) { x == 'R' || y == 'R' || x == 'C' || y == 'C' }

  predicate Name(s: string) { s != "" && NUL !in s }

  predicate WellFormed(e: Entry) {
    && e.x != NUL && e.y != NUL && Name(e.path) && (e.origin.Some? <==> Renamed(e.x, e.y))
    && (e.origin.Some? ==> Name(e.origin.value))
  }

  predicate AllWellFormed(entries: seq<Entry>) { forall e <- entries :: WellFormed(e) }

  function Fields(e: Entry): seq<string> {
    [[e.x, e.y, ' '] + e.path] + if e.origin.Some? then [e.origin.value] else []
  }

  function AllFields(entries: seq<Entry>): seq<string> {
    if entries == [] then [] else Fields(entries[0]) + AllFields(entries[1..])
  }

  /** Fields as git writes them, each ended by NUL. */
  function Join(fields: seq<string>): string {
    if fields == [] then "" else fields[0] + [NUL] + Join(fields[1..])
  }

  function Split(raw: string): (fields: seq<string>)
    ensures fields != []
  {
    if raw == "" then [""]
    else
      var rest := Split(raw[1..]);
      if raw[0] == NUL then [""] + rest else [[raw[0]] + rest[0]] + rest[1..]
  }

  lemma {:induction false} SplitField(field: string, rest: string)
    requires NUL !in field
    ensures Split(field + [NUL] + rest) == [field] + Split(rest)
  {
    if field == "" {
      assert (field + [NUL] + rest)[1..] == rest;
    } else {
      SplitField(field[1..], rest);
      assert (field + [NUL] + rest)[1..] == field[1..] + [NUL] + rest;
      assert ([field[1..]] + Split(rest))[1..] == Split(rest) && [field[0]] + field[1..] == field;
    }
  }

  lemma {:induction false} SplitJoin(fields: seq<string>)
    requires forall f <- fields :: NUL !in f
    ensures Split(Join(fields)) == fields + [""]
  {
    if fields != [] {
      SplitJoin(fields[1..]);
      SplitField(fields[0], Join(fields[1..]));
    }
  }

  /** The entries of the fields up to the first empty one; None is a scope that cannot be parsed. */
  function Parse(fields: seq<string>): Option<seq<Entry>>
    decreases |fields|
  {
    if fields == [] || fields[0] == "" then Some([])
    else if |fields[0]| < 4 || fields[0][2] != ' ' then None
    else
      var x, y, path := fields[0][0], fields[0][1], fields[0][3..];
      if !Renamed(x, y) then Prepend(Entry(x, y, path, None), Parse(fields[1..]))
      else if |fields| < 2 || fields[1] == "" then None
      else Prepend(Entry(x, y, path, Some(fields[1])), Parse(fields[2..]))
  }

  function Prepend(e: Entry, rest: Option<seq<Entry>>): Option<seq<Entry>> {
    if rest.Some? then Some([e] + rest.value) else None
  }

  function PathsOf(entries: seq<Entry>): set<string> {
    if entries == [] then {}
    else {entries[0].path} + (if entries[0].origin.Some? then {entries[0].origin.value} else {}) + PathsOf(entries[1..])
  }

  lemma ParseEntry(e: Entry, rest: seq<string>)
    requires WellFormed(e)
    ensures Parse(Fields(e) + rest) == Prepend(e, Parse(rest))
  {
    var fields := Fields(e) + rest;
    assert fields[|Fields(e)|..] == rest;
    assert fields[0] == [e.x, e.y, ' '] + e.path && fields[0][3..] == e.path;
  }

  lemma {:induction false} ParseFields(entries: seq<Entry>)
    requires AllWellFormed(entries)
    ensures Parse(AllFields(entries) + [""]) == Some(entries)
  {
    if entries != [] {
      var rest := AllFields(entries[1..]) + [""];
      assert WellFormed(entries[0]);
      ParseEntry(entries[0], rest);
      ParseFields(entries[1..]);
      assert AllFields(entries) + [""] == Fields(entries[0]) + rest;
      assert [entries[0]] + entries[1..] == entries;
      hide Parse, Fields, WellFormed;
    }
  }

  lemma {:induction false} FieldsHaveNoNul(entries: seq<Entry>)
    requires AllWellFormed(entries)
    ensures forall f <- AllFields(entries) :: NUL !in f
  {
    if entries != [] {
      assert WellFormed(entries[0]);
      FieldsHaveNoNul(entries[1..]);
    }
  }

  /** What git writes is read back entry by entry. */
  lemma ReadBack(entries: seq<Entry>)
    requires AllWellFormed(entries)
    ensures Parse(Split(Join(AllFields(entries)))) == Some(entries)
  {
    FieldsHaveNoNul(entries);
    SplitJoin(AllFields(entries));
    ParseFields(entries);
  }

  /** One entry read from fields without NUL is well formed, and is those fields. */
  lemma FirstEntry(fields: seq<string>)
    requires fields != [] && fields[0] != "" && (forall f <- fields :: NUL !in f) && Parse(fields).Some?
    ensures var e := Parse(fields).value[0];
            && WellFormed(e) && |Fields(e)| <= |fields| && Fields(e) == fields[..|Fields(e)|]
            && Parse(fields[|Fields(e)|..]).Some?
            && Parse(fields).value == [e] + Parse(fields[|Fields(e)|..]).value
  {
    var e := Parse(fields).value[0];
    assert [e.x, e.y, ' '] + e.path == fields[0];
    assert fields[0] in fields && e.x in fields[0] && e.y in fields[0] && forall c <- e.path :: c in fields[0];
  }

  /** Nothing else is accepted: the fields before the first empty one are those of the entries. */
  lemma {:induction false} OnlyWhatGitWrites(fields: seq<string>)
    requires forall f <- fields :: NUL !in f
    ensures Parse(fields).Some?
            ==> AllWellFormed(Parse(fields).value) && AllFields(Parse(fields).value) <= fields
                && (|AllFields(Parse(fields).value)| == |fields| || fields[|AllFields(Parse(fields).value)|] == "")
    decreases |fields|
  {
    if Parse(fields).Some? && fields != [] && fields[0] != "" {
      FirstEntry(fields);
      var entries := Parse(fields).value;
      var n := |Fields(entries[0])|;
      OnlyWhatGitWrites(fields[n..]);
      hide Parse, WellFormed, Fields;
      assert entries[1..] == Parse(fields[n..]).value;
      assert fields == Fields(entries[0]) + fields[n..];
    }
  }

  /** The paths so far, with those of the fields still to come, are the paths of all fields. */
  ghost predicate Collected(fields: seq<string>, rest: seq<string>, paths: set<string>) {
    && (Parse(fields).Some? <==> Parse(rest).Some?)
    && (Parse(rest).Some? ==> PathsOf(Parse(fields).value) == paths + PathsOf(Parse(rest).value))
  }

  lemma CollectEntry(fields: seq<string>, rest: seq<string>, paths: set<string>)
    requires Collected(fields, rest, paths) && rest != [] && rest[0] != "" && |rest[0]| >= 4 && rest[0][2] == ' '
    ensures if !Renamed(rest[0][0], rest[0][1]) then Collected(fields, rest[1..], paths + {rest[0][3..]})
            else if |rest| < 2 || rest[1] == "" then Parse(fields).None?
            else Collected(fields, rest[2..], paths + {rest[0][3..]} + {rest[1]})
  {
    if Parse(rest).Some? {
      var entries := Parse(rest).value;
      assert PathsOf(entries) == {rest[0][3..]} + (if Renamed(rest[0][0], rest[0][1]) then {rest[1]} else {}) + PathsOf(entries[1..]);
    }
  }

  method WorkingTreePaths(raw: string) returns (result: Option<set<string>>)
    ensures result == match Parse(Split(raw)) case Some(entries) => Some(PathsOf(entries)) case None => None
    ensures forall entries :: AllWellFormed(entries) && raw == Join(AllFields(entries)) ==> result == Some(PathsOf(entries))
  {
    forall written | AllWellFormed(written) && raw == Join(AllFields(written))
      ensures Parse(Split(raw)) == Some(written)
    {
      ReadBack(written);
    }
    var entries := Split(raw);
    var paths: set<string> := {};
    var index := 0;
    assert entries[0..] == entries;
    hide Split, PathsOf, AllWellFormed, Join;
    while index < |entries| && entries[index] != ""
      invariant index <= |entries|
      invariant Collected(entries, entries[index..], paths)
      decreases |entries| - index
    {
      ghost var rest := entries[index..];
      assert rest[0] == entries[index] && rest[1..] == entries[index + 1..];
      assert |rest| > 1 ==> rest[1] == entries[index + 1] && rest[2..] == entries[index + 2..];
      var entry := entries[index];
      if |entry| < 4 || entry[2] != ' ' { return None; }
      CollectEntry(entries, rest, paths);
      paths := paths + {entry[3..]};
      if Renamed(entry[0], entry[1]) {
        index := index + 1;
        if index >= |entries| || entries[index] == "" { return None; }
        paths := paths + {entries[index]};
      }
      index := index + 1;
    }
    result := Some(paths);
  }
}
