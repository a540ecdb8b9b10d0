/**
 * The command router (`utils/router.py`): handlers registered per match type and
 * command, and dispatch of an incoming command through the match types in the
 * order they were first registered.
 *
 * Handlers are named by numbers and their calls are returned instead of run. A
 * TEST route's key names its tester; `accepting` says which testers accept the
 * command. The `ctx` a tester returns, and the handlers' own results, are not modelled.
 */
module Router {
  import opened Wrappers
  import opened PyText

  const FullMatch: string := "full_match"
  const Keyword: string := "keyword"
  const Prefix: string := "prefix"
  const Test: string := "test"

  datatype Entry = Entry(key: string, handler: nat)

  /** `_router`: the match types in registration order, and each type's commands in registration order. */
  datatype RouterState = RouterState(types: seq<string>, mappers: map<string, seq<Entry>>)

  predicate WellFormed(st: RouterState) {
    && (forall i, j :: 0 <= i < j < |st.types| ==> st.types[i] != st.types[j])
    && (forall t :: t in st.types ==> t in st.mappers)
    && (forall t :: t in st.mappers ==> t in st.types)
  }

  /** The handler of the first entry with the key. */
  function Find(m: seq<Entry>, key: string): (h: Option<nat>)
    ensures h.Some? <==> exists i :: 0 <= i < |m| && m[i].key == key
  {
    if m == [] then None else if m[0].key == key then Some(m[0].handler) else Find(m[1..], key)
  }

  /** `mapper.get(cmd)` under a match type. */
  function Lookup(st: RouterState, matchType: string, key: string): Option<nat> {
    if matchType in st.mappers then Find(st.mappers[matchType], key) else None
  }

  /** `_router.setdefault(match_type, {}).setdefault(key, func)` */
  function WithEntry(st: RouterState, matchType: string, key: string, handler: nat): (r: RouterState)
    requires WellFormed(st)
    ensures WellFormed(r)
  {
    var st1 := if matchType in st.mappers then st else RouterState(st.types + [matchType], st.mappers[matchType := []]);
    var m := st1.mappers[matchType];
    if Find(m, key).Some? then st1 else st1.(mappers := st1.mappers[matchType := m + [Entry(key, handler)]])
  }

  lemma {:induction false} FindAppend(m: seq<Entry>, e: Entry, key: string)
    ensures Find(m + [e], key) == if Find(m, key).Some? then Find(m, key) else if e.key == key then Some(e.handler) else None
    decreases |m|
  {
    if m != [] {
      assert (m + [e])[1..] == m[1..] + [e];
      FindAppend(m[1..], e, key);
    }
  }

  /**
   * Registration keeps the first handler of a (match type, command) pair; a new
   * pair gets the handler; every other pair keeps what it had.
   */
  lemma RegisterKeepsFirst(st: RouterState, matchType: string, key: string, handler: nat, mt: string, k: string)
    requires WellFormed(st)
    ensures Lookup(WithEntry(st, matchType, key, handler), mt, k)
         == if mt == matchType && k == key && Lookup(st, mt, k).None? then Some(handler) else Lookup(st, mt, k)
  {
    var st1 := if matchType in st.mappers then st else RouterState(st.types + [matchType], st.mappers[matchType := []]);
    FindAppend(st1.mappers[matchType], Entry(key, handler), k);
  }

  /** A second registration of the same pair changes nothing. */
  lemma RegisterTwice(st: RouterState, matchType: string, key: string, h1: nat, h2: nat)
    requires WellFormed(st)
    ensures Lookup(WithEntry(WithEntry(st, matchType, key, h1), matchType, key, h2), matchType, key)
         == Lookup(WithEntry(st, matchType, key, h1), matchType, key)
  {
    RegisterKeepsFirst(st, matchType, key, h1, matchType, key);
    RegisterKeepsFirst(WithEntry(st, matchType, key, h1), matchType, key, h2, matchType, key);
  }

  /** The `cmd` argument of `route`: one command, or a list or tuple of them. */
  datatype CmdArg = One(key: string) | Many(keys: seq<string>)

  function RegisterAll(st: RouterState, matchType: string, keys: seq<string>, handler: nat): (r: RouterState)
    requires WellFormed(st)
    ensures WellFormed(r)
    decreases |keys|
  {
    if keys == [] then st else RegisterAll(WithEntry(st, matchType, keys[0], handler), matchType, keys[1..], handler)
  }

  /** `route(cmd, match_type)(func)` */
  function WithRoute(st: RouterState, cmd: CmdArg, matchType: string, handler: nat): (r: RouterState)
    requires WellFormed(st)
    ensures WellFormed(r)
  {
    match cmd
    case One(key) => WithEntry(st, matchType, key, handler)
    case Many(keys) => RegisterAll(st, matchType, keys, handler)
  }

  /** A list registers the handler under each of its commands not registered before; others keep theirs. */
  lemma {:induction false} RegisterAllEach(st: RouterState, matchType: string, keys: seq<string>, handler: nat, k: string)
    requires WellFormed(st)
    ensures Lookup(RegisterAll(st, matchType, keys, handler), matchType, k)
         == if k in keys && Lookup(st, matchType, k).None? then Some(handler) else Lookup(st, matchType, k)
    decreases |keys|
  {
    if keys != [] {
      var st1 := WithEntry(st, matchType, keys[0], handler);
      RegisterKeepsFirst(st, matchType, keys[0], handler, matchType, k);
      RegisterAllEach(st1, matchType, keys[1..], handler, k);
      assert k in keys <==> k == keys[0] || k in keys[1..];
    }
  }

  /** What a handler is called with. */
  datatype CallArg =
    | NoCmd              // FULL_MATCH: `f(*args)`
    | WholeCmd(s: string)  // KEYWORD: `f(cmd, ...)`; TEST: `f(cmd, ctx=..., ...)`
    | Rest(s: string)    // PREFIX: `f(cmd.removeprefix(k), ...)`

  datatype Call = Call(handler: nat, arg: CallArg)

  /** A dispatch: the TEST handlers called on the way, and the call whose result is returned, None for NotImplementedError. */
  datatype Outcome = Outcome(tests: seq<Call>, result: Option<Call>)

  /** The first entry whose key is a substring of the command. */
  function FirstKeyword(m: seq<Entry>, cmd: string): (r: Option<Entry>)
    ensures r.Some? ==> r.value in m && Contains(cmd, r.value.key)
  {
    if m == [] then None else if Contains(cmd, m[0].key) then Some(m[0]) else FirstKeyword(m[1..], cmd)
  }

  /** The first entry whose key the command starts with. */
  function FirstPrefix(m: seq<Entry>, cmd: string): (r: Option<Entry>)
    ensures r.Some? ==> r.value in m && StartsWith(cmd, r.value.key)
  {
    if m == [] then None else if StartsWith(cmd, m[0].key) then Some(m[0]) else FirstPrefix(m[1..], cmd)
  }

  /** The calls of the accepting testers' handlers, in registration order. */
  function TestCalls(m: seq<Entry>, cmd: string, accepting: set<string>): seq<Call> {
    if m == [] then []
    else (if m[0].key in accepting then [Call(m[0].handler, WholeCmd(cmd))] else []) + TestCalls(m[1..], cmd, accepting)
  }

  /** What one match type does with the command: a call that ends the dispatch, or TEST calls and go on. */
  function TypeOutcome(matchType: string, m: seq<Entry>, cmd: string, accepting: set<string>): (o: Outcome)
    ensures matchType != Test ==> o.tests == []
    ensures matchType == Test ==> o.result.None?
    ensures matchType !in {FullMatch, Keyword, Prefix, Test} ==> o == Outcome([], None)
  {
    if matchType == FullMatch then
      match Find(m, cmd)
      case Some(h) => Outcome([], Some(Call(h, NoCmd)))
      case None => Outcome([], None)
    else if matchType == Keyword then
      match FirstKeyword(m, cmd)
      case Some(e) => Outcome([], Some(Call(e.handler, WholeCmd(cmd))))
      case None => Outcome([], None)
    else if matchType == Prefix then
      match FirstPrefix(m, cmd)
      case Some(e) => Outcome([], Some(Call(e.handler, Rest(RemovePrefix(cmd, e.key)))))
      case None => Outcome([], None)
    else if matchType == Test then Outcome(TestCalls(m, cmd, accepting), None)
    else Outcome([], None)
  }

  /** What every match type does with the command, in registration order. */
  function Outcomes(st: RouterState, cmd: string, accepting: set<string>): (os: seq<Outcome>)
    requires WellFormed(st)
    ensures |os| == |st.types|
  {
    seq(|st.types|, j requires 0 <= j < |st.types| => TypeOutcome(st.types[j], st.mappers[st.types[j]], cmd, accepting))
  }

  /** The outcomes from the i-th on: the first call that ends the dispatch, after the TEST calls made before it. */
  function FirstFrom(os: seq<Outcome>, i: nat): Outcome
    requires i <= |os|
    decreases |os| - i
  {
    if i == |os| then Outcome([], None)
    else if os[i].result.Some? then os[i]
    else
      var rest := FirstFrom(os, i + 1);
      Outcome(os[i].tests + rest.tests, rest.result)
  }

  /** `route_todo(cmd)` over the match types from the i-th on. */
  function DispatchFrom(st: RouterState, i: nat, cmd: string, accepting: set<string>): Outcome
    requires WellFormed(st) && i <= |st.types|
  {
    FirstFrom(Outcomes(st, cmd, accepting), i)
  }

  /** `route_todo(cmd)`: a call ends it iff some match type fires; otherwise it raises NotImplementedError. */
  function Dispatch(st: RouterState, cmd: string, accepting: set<string>): (o: Outcome)
    requires WellFormed(st)
    ensures o.result.Some? <==> exists j :: 0 <= j < |st.types| && Fires(st, j, cmd, accepting)
  {
    DispatchFirstFiring(st, 0, cmd, accepting);
    DispatchFrom(st, 0, cmd, accepting)
  }

  lemma DispatchUnfold(st: RouterState, i: nat, cmd: string, accepting: set<string>)
    requires WellFormed(st) && i < |st.types|
    ensures var here := TypeOutcome(st.types[i], st.mappers[st.types[i]], cmd, accepting);
      DispatchFrom(st, i, cmd, accepting)
        == if here.result.Some? then here
           else Outcome(here.tests + DispatchFrom(st, i + 1, cmd, accepting).tests, DispatchFrom(st, i + 1, cmd, accepting).result)
  {
    assert Outcomes(st, cmd, accepting)[i] == TypeOutcome(st.types[i], st.mappers[st.types[i]], cmd, accepting);
  }

  /** The i-th match type finds a handler for the command. */
  predicate Fires(st: RouterState, j: nat, cmd: string, accepting: set<string>)
    requires WellFormed(st) && j < |st.types|
  {
    TypeOutcome(st.types[j], st.mappers[st.types[j]], cmd, accepting).result.Some?
  }

  /**
   * The dispatch ends at the first match type, in registration order, that finds a
   * handler; when none finds one the call raises NotImplementedError, TEST calls or not.
   */
  lemma DispatchFirstFiring(st: RouterState, i: nat, cmd: string, accepting: set<string>)
    requires WellFormed(st) && i <= |st.types|
    ensures DispatchFrom(st, i, cmd, accepting).result.Some? <==> exists j :: i <= j < |st.types| && Fires(st, j, cmd, accepting)
    ensures forall j :: i <= j < |st.types| && Fires(st, j, cmd, accepting)
                     && (forall l :: i <= l < j ==> !Fires(st, l, cmd, accepting))
                     ==> DispatchFrom(st, i, cmd, accepting).result == TypeOutcome(st.types[j], st.mappers[st.types[j]], cmd, accepting).result
  {
    var os := Outcomes(st, cmd, accepting);
    forall j | 0 <= j < |os|
      ensures (Fires(st, j, cmd, accepting) <==> os[j].result.Some?)
      ensures os[j].result == TypeOutcome(st.types[j], st.mappers[st.types[j]], cmd, accepting).result
    {
      assert os[j] == TypeOutcome(st.types[j], st.mappers[st.types[j]], cmd, accepting);
    }
    FirstFromSomeIff(os, i);
    forall j | i <= j < |st.types| && Fires(st, j, cmd, accepting)
                && (forall l :: i <= l < j ==> !Fires(st, l, cmd, accepting))
      ensures DispatchFrom(st, i, cmd, accepting).result == TypeOutcome(st.types[j], st.mappers[st.types[j]], cmd, accepting).result
    {
      forall l | i <= l < j
        ensures os[l].result.None?
      {
        assert !Fires(st, l, cmd, accepting);
      }
      FirstFromAt(os, i, j);
    }
  }

  /** Some call ends the dispatch exactly when some outcome from the i-th on is a call. */
  lemma {:induction false} FirstFromSomeIff(os: seq<Outcome>, i: nat)
    requires i <= |os|
    ensures FirstFrom(os, i).result.Some? <==> exists j :: i <= j < |os| && os[j].result.Some?
    decreases |os| - i
  {
    if i < |os| {
      if os[i].result.Some? {
        assert i <= i < |os| && os[i].result.Some?;
      } else {
        FirstFromSomeIff(os, i + 1);
        if j :| i <= j < |os| && os[j].result.Some? {
          assert i + 1 <= j;
        }
      }
    }
  }

  /** The dispatch returns the call of the first outcome from the i-th on that is one. */
  lemma {:induction false} FirstFromAt(os: seq<Outcome>, i: nat, j: nat)
    requires i <= j < |os| && os[j].result.Some?
    requires forall l :: i <= l < j ==> os[l].result.None?
    ensures FirstFrom(os, i).result == os[j].result
    decreases j - i
  {
    if i < j {
      assert os[i].result.None?;
      FirstFromAt(os, i + 1, j);
    }
  }

  /** FULL_MATCH fires only on an exact key and calls the handler without the command. */
  lemma FullMatchExact(m: seq<Entry>, cmd: string, accepting: set<string>)
    ensures TypeOutcome(FullMatch, m, cmd, accepting).result.Some? <==> exists i :: 0 <= i < |m| && m[i].key == cmd
    ensures TypeOutcome(FullMatch, m, cmd, accepting).result.Some? ==>
      TypeOutcome(FullMatch, m, cmd, accepting).result.value == Call(Find(m, cmd).value, NoCmd)
  {
  }

  /** KEYWORD fires for the first registered keyword contained in the command, and only then. */
  lemma {:induction false} KeywordFirst(m: seq<Entry>, cmd: string, i: nat)
    requires i < |m| && Contains(cmd, m[i].key)
    requires forall j :: 0 <= j < i ==> !Contains(cmd, m[j].key)
    ensures FirstKeyword(m, cmd) == Some(m[i])
    decreases i
  {
    if i > 0 {
      assert forall j :: 0 <= j < i - 1 ==> m[1..][j] == m[j + 1];
      KeywordFirst(m[1..], cmd, i - 1);
    }
  }

  lemma {:induction false} KeywordNone(m: seq<Entry>, cmd: string)
    ensures FirstKeyword(m, cmd).None? <==> forall j :: 0 <= j < |m| ==> !Contains(cmd, m[j].key)
    decreases |m|
  {
    if m != [] {
      KeywordNone(m[1..], cmd);
      assert forall j :: 1 <= j < |m| ==> m[j] == m[1..][j - 1];
    }
  }

  /** PREFIX fires for the first registered prefix of the command and hands over the command without it. */
  lemma {:induction false} PrefixFirst(m: seq<Entry>, cmd: string, i: nat)
    requires i < |m| && StartsWith(cmd, m[i].key)
    requires forall j :: 0 <= j < i ==> !StartsWith(cmd, m[j].key)
    ensures FirstPrefix(m, cmd) == Some(m[i])
    ensures TypeOutcome(Prefix, m, cmd, {}).result == Some(Call(m[i].handler, Rest(cmd[|m[i].key|..])))
    ensures m[i].key + cmd[|m[i].key|..] == cmd
    decreases i
  {
    if i > 0 {
      assert forall j :: 0 <= j < i - 1 ==> m[1..][j] == m[j + 1];
      PrefixFirst(m[1..], cmd, i - 1);
    }
  }

  /** TEST never ends the dispatch: it calls the handler of every accepting tester, in order. */
  lemma {:induction false} TestGoesOn(m: seq<Entry>, cmd: string, accepting: set<string>)
    ensures TypeOutcome(Test, m, cmd, accepting).result.None?
    ensures |TestCalls(m, cmd, accepting)| <= |m|
    ensures forall c :: c in TestCalls(m, cmd, accepting) ==> c.arg == WholeCmd(cmd) && exists e :: e in m && e.key in accepting && e.handler == c.handler
    decreases |m|
  {
    if m != [] {
      TestGoesOn(m[1..], cmd, accepting);
      forall c | c in TestCalls(m, cmd, accepting)
        ensures c.arg == WholeCmd(cmd) && exists e :: e in m && e.key in accepting && e.handler == c.handler
      {
        if c !in TestCalls(m[1..], cmd, accepting) {
          assert m[0] in m;
        } else {
          var e :| e in m[1..] && e.key in accepting && e.handler == c.handler;
          assert e in m;
        }
      }
    }
  }

  /** The global `_router`. */
  class Routes {
    var types: seq<string>
    var mappers: map<string, seq<Entry>>

    ghost predicate Valid()
      reads this
    {
      WellFormed(State())
    }

    ghost function State(): RouterState
      reads this
    {
      RouterState(types, mappers)
    }

    constructor ()
      ensures State() == RouterState([], map[]) && Valid()
    {
      types := [];
      mappers := map[];
    }

    /** One `setdefault(match_type, {}).setdefault(key, func)` */
    method Register(matchType: string, key: string, handler: nat)
      requires Valid()
      modifies this
      ensures Valid() && State() == WithEntry(old(State()), matchType, key, handler)
    {
      if matchType !in mappers {
        types := types + [matchType];
        mappers := mappers[matchType := []];
      }
      var m := mappers[matchType];
      var i := 0;
      while i < |m|
        invariant 0 <= i <= |m|
        invariant forall j :: 0 <= j < i ==> m[j].key != key
      {
        if m[i].key == key {
          return;
        }
        i := i + 1;
      }
      mappers := mappers[matchType := m + [Entry(key, handler)]];
    }

    /** `route(cmd, match_type)(func)`: a list or tuple registers each of its commands in turn. */
    method Route(cmd: CmdArg, matchType: string, handler: nat)
      requires Valid()
      modifies this
      ensures Valid() && State() == WithRoute(old(State()), cmd, matchType, handler)
    {
      match cmd
      case One(key) =>
        Register(matchType, key, handler);
      case Many(keys) =>
        var i := 0;
        while i < |keys|
          invariant 0 <= i <= |keys| && Valid()
          invariant RegisterAll(State(), matchType, keys[i..], handler) == RegisterAll(old(State()), matchType, keys, handler)
        {
          assert keys[i..][1..] == keys[i + 1..];
          Register(matchType, keys[i], handler);
          i := i + 1;
        }
    }

    /** `route_todo(cmd)`: the TEST calls made, and the call returned or None for NotImplementedError. */
    method RouteTodo(cmd: string, accepting: set<string>) returns (r: Outcome)
      requires Valid()
      ensures r == Dispatch(State(), cmd, accepting)
    {
      ghost var st := State();
      var ts, ms := types, mappers;
      var tests: seq<Call> := [];
      var i := 0;
      while i < |ts|
        invariant 0 <= i <= |ts| && st == RouterState(ts, ms) && WellFormed(st)
        invariant Outcome(tests + DispatchFrom(st, i, cmd, accepting).tests, DispatchFrom(st, i, cmd, accepting).result)
               == Dispatch(st, cmd, accepting)
      {
        assert ts[i] in ms;
        var here := TypeStep(ts[i], ms[ts[i]], cmd, accepting);
        DispatchUnfold(st, i, cmd, accepting);
        if here.result.Some? {
          return Outcome(tests, here.result);
        }
        assert tests + (here.tests + DispatchFrom(st, i + 1, cmd, accepting).tests)
            == tests + here.tests + DispatchFrom(st, i + 1, cmd, accepting).tests;
        tests := tests + here.tests;
        i := i + 1;
      }
      return Outcome(tests, None);
    }

    /** The body of the `match match_type` for one mapper. */
    static method TypeStep(matchType: string, m: seq<Entry>, cmd: string, accepting: set<string>) returns (r: Outcome)
      ensures r == TypeOutcome(matchType, m, cmd, accepting)
    {
      if matchType == FullMatch {
        var f := Find(m, cmd);
        r := if f.Some? then Outcome([], Some(Call(f.value, NoCmd))) else Outcome([], None);
      } else if matchType == Keyword {
        var e := KeywordScan(m, cmd);
        r := if e.Some? then Outcome([], Some(Call(e.value.handler, WholeCmd(cmd)))) else Outcome([], None);
      } else if matchType == Prefix {
        var e := PrefixScan(m, cmd);
        r := if e.Some? then Outcome([], Some(Call(e.value.handler, Rest(RemovePrefix(cmd, e.value.key))))) else Outcome([], None);
      } else if matchType == Test {
        var calls := TestScan(m, cmd, accepting);
        r := Outcome(calls, None);
      } else {
        r := Outcome([], None);
      }
    }

    /** The KEYWORD loop: the first entry, in registration order, whose key occurs in the command. */
    static method KeywordScan(m: seq<Entry>, cmd: string) returns (r: Option<Entry>)
      ensures r == FirstKeyword(m, cmd)
    {
      var j := 0;
      while j < |m|
        invariant 0 <= j <= |m| && FirstKeyword(m[j..], cmd) == FirstKeyword(m, cmd)
      {
        if Contains(cmd, m[j].key) {
          return Some(m[j]);
        }
        assert m[j..][1..] == m[j + 1..];
        j := j + 1;
      }
      return None;
    }

    /** The PREFIX loop: the first entry, in registration order, whose key the command starts with. */
    static method PrefixScan(m: seq<Entry>, cmd: string) returns (r: Option<Entry>)
      ensures r == FirstPrefix(m, cmd)
    {
      var j := 0;
      while j < |m|
        invariant 0 <= j <= |m| && FirstPrefix(m[j..], cmd) == FirstPrefix(m, cmd)
      {
        if StartsWith(cmd, m[j].key) {
          return Some(m[j]);
        }
        assert m[j..][1..] == m[j + 1..];
        j := j + 1;
      }
      return None;
    }

    /** The TEST loop: every accepting tester's handler is called, in registration order. */
    static method TestScan(m: seq<Entry>, cmd: string, accepting: set<string>) returns (calls: seq<Call>)
      ensures calls == TestCalls(m, cmd, accepting)
    {
      calls := [];
      var j := 0;
      while j < |m|
        invariant 0 <= j <= |m| && calls + TestCalls(m[j..], cmd, accepting) == TestCalls(m, cmd, accepting)
      {
        if m[j].key in accepting {
          calls := calls + [Call(m[j].handler, WholeCmd(cmd))];
        }
        assert m[j..][1..] == m[j + 1..];
        j := j + 1;
      }
    }
  }
}
