/** `TestcaseFile` and `TO_RUN`: the table, filled in by the `prebuild` and `testcase`
    decorators, of what each test module has declared. */
module Registration {
  import opened Wrappers
  import opened TestcaseWrapper

  /** One traceback entry: the file name and the line number. */
  datatype Frame = Frame(file: string, line: nat)

  /** What calling a user function did: it returned, or it raised an exception whose `str` is
      `message`, with the traceback `trace` (outermost frame first). */
  datatype Behaviour = Returns | Raises(message: string, trace: seq<Frame>)

  /** The `prebuild` attribute: the default `lambda: None`, or the wrapper the `prebuild`
      decorator made around a user function of module `modname`. */
  datatype Prebuild = NoOp | Hook(modname: string, behaviour: Behaviour)

  /** A wrapper the `testcase` decorator made around the user function `funcName` of module
      `modname`. */
  datatype Testcase = Testcase(modname: string, funcName: string, behaviour: Behaviour)

  /** A `TestcaseFile`; `wrapper` is None until a decorator sets the attribute. */
  datatype Record = Record(prebuild: Prebuild, testcases: seq<Testcase>, wrapper: Option<Wrapper>)

  /** What `TestcaseFile()` creates. */
  const Fresh := Record(NoOp, [], None)

  /** `TO_RUN` as a value: the records and the order in which the keys were first used. */
  datatype Table = Table(entries: map<string, Record>, order: seq<string>)

  const Empty := Table(map[], [])

  /** What `TO_RUN[key]` gives, whether or not the key is present. */
  function Lookup(t: Table, key: string): Record
  {
    if key in t.entries then t.entries[key] else Fresh
  }

  /** The effect of evaluating `TO_RUN[key]`: a missing key gets a fresh record at the end. */
  function Touch(t: Table, key: string): (r: Table)
    ensures key in r.entries
    ensures forall k :: Lookup(r, k) == Lookup(t, k)
  {
    if key in t.entries then t else Table(t.entries[key := Fresh], t.order + [key])
  }

  /** A record as the decorators leave it: everything in it belongs to module `key`, and a
      record a decorator has touched has a wrapper. */
  predicate RecordOf(key: string, r: Record)
  {
    && (r.prebuild.Hook? ==> r.prebuild.modname == key)
    && (forall i :: 0 <= i < |r.testcases| ==> r.testcases[i].modname == key)
    && (r.prebuild.Hook? || |r.testcases| > 0 ==> r.wrapper.Some?)
  }

  /** The table's invariant: the order lists each key once, and each record belongs to its key. */
  ghost predicate WellFormed(t: Table)
  {
    && (forall i, j :: 0 <= i < j < |t.order| ==> t.order[i] != t.order[j])
    && (forall k :: k in t.entries <==> k in t.order)
    && (forall k :: k in t.entries ==> RecordOf(k, t.entries[k]))
  }

  /** One decorator application in a module loaded by the suite. */
  datatype Declaration =
    | DeclarePrebuild(modname: string, path: string, behaviour: Behaviour)
    | DeclareTestcase(modname: string, path: string, funcName: string, behaviour: Behaviour)

  /** The table after one decorator has run. */
  function Declare(t: Table, d: Declaration): Table
  {
    var t' := Touch(t, d.modname);
    var r := t'.entries[d.modname];
    match d
    case DeclarePrebuild(m, path, b) =>
      Table(t'.entries[m := r.(wrapper := Some(Wrapper(path)), prebuild := Hook(m, b))], t'.order)
    case DeclareTestcase(m, path, f, b) =>
      Table(t'.entries[m := r.(wrapper := Some(Wrapper(path)), testcases := r.testcases + [Testcase(m, f, b)])], t'.order)
  }

  /** `@prebuild` sets the module's prebuild action and wrapper; its testcases, and every other
      module, are untouched. */
  lemma PrebuildReplaces(t: Table, m: string, path: string, b: Behaviour)
    ensures var r := Lookup(Declare(t, DeclarePrebuild(m, path, b)), m);
      r.prebuild == Hook(m, b) && r.testcases == Lookup(t, m).testcases && r.wrapper == Some(Wrapper(path))
    ensures forall k :: k != m ==> Lookup(Declare(t, DeclarePrebuild(m, path, b)), k) == Lookup(t, k)
  {
  }

  /** `@testcase` appends one testcase to the end of its module's list; the prebuild action,
      and every other module, are untouched. */
  lemma TestcaseAppends(t: Table, m: string, path: string, f: string, b: Behaviour)
    ensures var r := Lookup(Declare(t, DeclareTestcase(m, path, f, b)), m);
      r.testcases == Lookup(t, m).testcases + [Testcase(m, f, b)]
      && r.prebuild == Lookup(t, m).prebuild && r.wrapper == Some(Wrapper(path))
    ensures forall k :: k != m ==> Lookup(Declare(t, DeclareTestcase(m, path, f, b)), k) == Lookup(t, k)
  {
  }

  /** A module nothing was declared for looks like a fresh `TestcaseFile`. */
  lemma FreshRecord(t: Table, k: string)
    requires k !in t.entries
    ensures Lookup(t, k).prebuild == NoOp && Lookup(t, k).testcases == [] && Lookup(t, k).wrapper.None?
  {
  }

  /** Adding a fresh record for a new key at the end of the order keeps the table well formed. */
  lemma TouchKeepsWellFormed(t: Table, key: string)
    requires WellFormed(t)
    ensures WellFormed(Touch(t, key))
  {
    if key !in t.entries {
      var o := t.order + [key];
      assert forall i :: 0 <= i < |t.order| ==> o[i] == t.order[i];
      assert forall k :: k in o <==> k in t.order || k == key;
    }
  }

  /** Replacing the record of a present key by one that belongs to it keeps the table well formed. */
  lemma UpdateKeepsWellFormed(t: Table, key: string, r: Record)
    requires WellFormed(t) && key in t.entries && RecordOf(key, r)
    ensures WellFormed(Table(t.entries[key := r], t.order))
  {
  }

  lemma DeclareKeepsWellFormed(t: Table, d: Declaration)
    requires WellFormed(t)
    ensures WellFormed(Declare(t, d))
  {
    var t' := Touch(t, d.modname);
    TouchKeepsWellFormed(t, d.modname);
    var r := t'.entries[d.modname];
    assert RecordOf(d.modname, r);
    match d
    case DeclarePrebuild(m, path, b) =>
      UpdateKeepsWellFormed(t', m, r.(wrapper := Some(Wrapper(path)), prebuild := Hook(m, b)));
    case DeclareTestcase(m, path, f, b) =>
      var r' := r.(wrapper := Some(Wrapper(path)), testcases := r.testcases + [Testcase(m, f, b)]);
      assert forall i :: 0 <= i < |r'.testcases| ==> r'.testcases[i].modname == m by {
        assert forall i :: 0 <= i < |r.testcases| ==> r'.testcases[i] == r.testcases[i];
      }
      UpdateKeepsWellFormed(t', m, r');
  }

  // ---------------------------------------------------------------- a whole suite of declarations

  /** The table after the declarations have run in order. */
  function Replay(ds: seq<Declaration>): Table
  {
    if |ds| == 0 then Empty else Declare(Replay(ds[..|ds| - 1]), ds[|ds| - 1])
  }

  /** The testcases module `m` declared, in declaration order. */
  function TestcasesOf(ds: seq<Declaration>, m: string): seq<Testcase>
  {
    if |ds| == 0 then []
    else
      var d := ds[|ds| - 1];
      TestcasesOf(ds[..|ds| - 1], m)
      + if d.DeclareTestcase? && d.modname == m then [Testcase(m, d.funcName, d.behaviour)] else []
  }

  /** The last prebuild module `m` declared, if any. */
  function LastPrebuild(ds: seq<Declaration>, m: string): Prebuild
  {
    if |ds| == 0 then NoOp
    else
      var d := ds[|ds| - 1];
      if d.DeclarePrebuild? && d.modname == m then Hook(m, d.behaviour) else LastPrebuild(ds[..|ds| - 1], m)
  }

  /** The modules in the order of their first declaration. */
  function FirstSeen(ds: seq<Declaration>): seq<string>
  {
    if |ds| == 0 then []
    else
      var prior := FirstSeen(ds[..|ds| - 1]);
      if ds[|ds| - 1].modname in prior then prior else prior + [ds[|ds| - 1].modname]
  }

  /** Loading keeps the table well formed. */
  lemma {:induction false} ReplayWellFormed(ds: seq<Declaration>)
    ensures WellFormed(Replay(ds))
  {
    if |ds| > 0 {
      ReplayWellFormed(ds[..|ds| - 1]);
      DeclareKeepsWellFormed(Replay(ds[..|ds| - 1]), ds[|ds| - 1]);
    }
  }

  /** The table's keys are the declaring modules, in the order they first declared something. */
  lemma {:induction false} ReplayOrder(ds: seq<Declaration>)
    ensures Replay(ds).order == FirstSeen(ds)
  {
    if |ds| > 0 {
      var prior := ds[..|ds| - 1];
      ReplayOrder(prior);
      ReplayWellFormed(prior);
      assert ds[|ds| - 1].modname in Replay(prior).entries <==> ds[|ds| - 1].modname in FirstSeen(prior);
    }
  }

  /** After loading, a module's record holds exactly its declared testcases, in declaration
      order, and its last declared prebuild. */
  lemma {:induction false} ReplayRecords(ds: seq<Declaration>, m: string)
    ensures Lookup(Replay(ds), m).testcases == TestcasesOf(ds, m)
    ensures Lookup(Replay(ds), m).prebuild == LastPrebuild(ds, m)
  {
    if |ds| > 0 {
      var prior := ds[..|ds| - 1];
      ReplayRecords(prior, m);
      match ds[|ds| - 1]
      case DeclarePrebuild(m', path, b) =>
        PrebuildReplaces(Replay(prior), m', path, b);
      case DeclareTestcase(m', path, f, b) =>
        TestcaseAppends(Replay(prior), m', path, f, b);
    }
  }

  // ---------------------------------------------------------------- TO_RUN itself

  /** The `TO_RUN` dictionary: records by module name, keys in insertion order. */
  class Registry {
    var entries: map<string, Record>
    var order: seq<string>

    function Snapshot(): Table
      reads this
    {
      Table(entries, order)
    }

    ghost predicate Valid()
      reads this
    {
      WellFormed(Snapshot())
    }

    /** `defaultdict(lambda: TestcaseFile())` with nothing in it. */
    constructor ()
      ensures Valid() && Snapshot() == Empty
    {
      entries := map[];
      order := [];
    }

    /** `TO_RUN[key]`: the record, created fresh if the key is new. */
    method Get(key: string) returns (r: Record)
      requires Valid()
      modifies this
      ensures Valid()
      ensures r == Lookup(old(Snapshot()), key)
      ensures Snapshot() == Touch(old(Snapshot()), key)
    {
      if key !in entries {
        entries := entries[key := Fresh];
        order := order + [key];
      }
      r := entries[key];
    }

    /** What `@prebuild` does to `TO_RUN` for a function of module `modname` in directory `path`. */
    method AddPrebuild(modname: string, path: string, b: Behaviour)
      requires Valid()
      modifies this
      ensures Valid()
      ensures Snapshot() == Declare(old(Snapshot()), DeclarePrebuild(modname, path, b))
    {
      ghost var before := Snapshot();
      var r := Get(modname);
      ghost var r0, touched := r, entries;
      entries := entries[modname := r.(wrapper := Some(Wrapper(path)))];
      r := entries[modname];
      entries := entries[modname := r.(prebuild := Hook(modname, b))];
      assert entries == touched[modname := r0.(wrapper := Some(Wrapper(path)), prebuild := Hook(modname, b))];
      DeclareKeepsWellFormed(before, DeclarePrebuild(modname, path, b));
    }

    /** What `@testcase` does to `TO_RUN` for the function `funcName` of module `modname`. */
    method AddTestcase(modname: string, path: string, funcName: string, b: Behaviour)
      requires Valid()
      modifies this
      ensures Valid()
      ensures Snapshot() == Declare(old(Snapshot()), DeclareTestcase(modname, path, funcName, b))
    {
      ghost var before := Snapshot();
      var r := Get(modname);
      ghost var r0, touched := r, entries;
      entries := entries[modname := r.(wrapper := Some(Wrapper(path)))];
      r := entries[modname];
      entries := entries[modname := r.(testcases := r.testcases + [Testcase(modname, funcName, b)])];
      assert entries == touched[modname := r0.(wrapper := Some(Wrapper(path)), testcases := r0.testcases + [Testcase(modname, funcName, b)])];
      DeclareKeepsWellFormed(before, DeclareTestcase(modname, path, funcName, b));
    }
  }
}
