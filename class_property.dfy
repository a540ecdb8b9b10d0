/**
 * `classproperty` (`utils/__init__.py`): a descriptor that computes a class
 * attribute from the owner class, optionally remembering the first result.
 * Its state is the `method` it calls, the `cached` flag and the stored
 * `_cache`; `calls` counts how often the method has been invoked, which is
 * what caching saves.
 */
module ClassProperty {
  import opened Wrappers

  /** A function the descriptor may call, given by name; what it computes is a parameter. */
  datatype Fn = Fn(name: string)

  /** A Python value as the descriptor sees it: callable or not, truthy or not. */
  datatype Val = NoneVal | IntVal(i: int) | StrVal(s: string) | FuncVal(f: Fn)

  predicate Callable(x: Val) {
    x.FuncVal?
  }

  /** `bool(x)` */
  predicate Truthy(x: Val) {
    match x
    case NoneVal => false
    case IntVal(i) => i != 0
    case StrVal(s) => s != ""
    case FuncVal(_) => true
  }

  /** The `method` attribute: not set yet, a callable, or `lambda c: value`. */
  datatype Method = NoMethod | Calls(f: Fn) | ConstOf(v: Val)

  /** What `__set__` receives: a plain value, or a `property_val(value, cached)`. */
  datatype Assigned = Plain(v: Val) | PropertyVal(v: Val, c: Val)

  datatype DescError = AttributeError(attr: string)

  /** The descriptor's attributes. */
  datatype DState = DState(fn: Method, cached: bool, cache: Option<Val>, calls: nat)

  /** `classproperty(method_or_cached)` */
  function Made(x: Val): (st: DState)
    ensures st.cache.None? && st.calls == 0
    ensures Callable(x) ==> st.fn == Calls(x.f) && !st.cached
    ensures !Callable(x) ==> st.fn == NoMethod && (st.cached <==> Truthy(x))
  {
    if Callable(x) then DState(Calls(x.f), false, None, 0)
    else DState(NoMethod, Truthy(x), None, 0)
  }

  /** `__call__(method)`: the decorator form, which sets the method and keeps everything else. */
  function Decorated(st: DState, f: Fn): (r: DState)
    ensures r.fn == Calls(f)
    ensures r.cached == st.cached && r.cache == st.cache && r.calls == st.calls
  {
    st.(fn := Calls(f))
  }

  /** One invocation `self.method(owner)`, where `eval` is what the callables compute. */
  function Invoked(st: DState, owner: string, eval: (Fn, string) -> Val): (r: Result<Val, DescError>)
    ensures st.fn.NoMethod? <==> r.Err?
    ensures st.fn.Calls? ==> r == Ok(eval(st.fn.f, owner))
    ensures st.fn.ConstOf? ==> r == Ok(st.fn.v)
  {
    match st.fn
    case NoMethod => Err(AttributeError("method"))
    case Calls(f) => Ok(eval(f, owner))
    case ConstOf(v) => Ok(v)
  }

  /** The result of an access and the state after it. */
  datatype Access = Access(r: Result<Val, DescError>, st: DState)

  /** `__get__(ins, owner)` */
  function Got(st: DState, owner: string, eval: (Fn, string) -> Val): (a: Access)
    ensures st.cached && st.cache.Some? ==> a == Access(Ok(st.cache.value), st)
    ensures a.r.Err? <==> st.fn.NoMethod? && !(st.cached && st.cache.Some?)
    ensures a.st.fn == st.fn && a.st.cached == st.cached && a.st.calls <= st.calls + 1
    ensures st.cached && a.r.Ok? ==> a.st.cache == Some(a.r.value)
    ensures !st.cached ==> a.st.cache == st.cache
  {
    if !st.cached then
      var r := Invoked(st, owner, eval);
      Access(r, if r.Ok? then st.(calls := st.calls + 1) else st)
    else if st.cache.Some? then Access(Ok(st.cache.value), st)
    else
      var r := Invoked(st, owner, eval);
      if r.Err? then Access(r, st) else Access(r, st.(cache := Some(r.value), calls := st.calls + 1))
  }

  /** `__set__(ins, value)` */
  function SetTo(st: DState, a: Assigned): (r: DState)
    ensures r.cached == (if a.PropertyVal? then Truthy(a.c) else st.cached) && r.calls == st.calls
    ensures Callable(a.v) ==> r.fn == Calls(a.v.f) && r.cache == st.cache
    ensures !Callable(a.v) && r.cached ==> r.cache == Some(a.v) && r.fn == st.fn
    ensures !Callable(a.v) && !r.cached ==> r.fn == ConstOf(a.v) && r.cache == st.cache
  {
    var st1 := if a.PropertyVal? then st.(cached := Truthy(a.c)) else st;
    var v := a.v;
    if Callable(v) then st1.(fn := Calls(v.f))
    else if st1.cached then st1.(cache := Some(v))
    else st1.(fn := ConstOf(v))
  }

  /** `__delete__(ins)`: the state after it and the exception it raised, if any. */
  datatype Deletion = Deletion(st: DState, err: Option<DescError>)

  function Deleted(st: DState): (r: Deletion)
    ensures r.err.Some? <==> st.cached && st.cache.None?
    ensures st.cached ==> r.st.cache.None?
    ensures r.st.fn == st.fn && r.st.cached == st.cached && r.st.calls == st.calls
  {
    if !st.cached then Deletion(st, None)
    else if st.cache.None? then Deletion(st, Some(AttributeError("_cache")))
    else Deletion(st.(cache := None), None)
  }

  // ----- properties -----

  /** Built from a callable, the property is uncached: every access calls the method with the owner class. */
  lemma FromCallableUncached(f: Fn, owner1: string, owner2: string, eval: (Fn, string) -> Val)
    ensures var st := Made(FuncVal(f));
      var a1 := Got(st, owner1, eval);
      var a2 := Got(a1.st, owner2, eval);
      && a1.r == Ok(eval(f, owner1)) && a2.r == Ok(eval(f, owner2))
      && a1.st.calls == 1 && a2.st.calls == 2 && a2.st.cache.None?
  {
  }

  /**
   * Built from a flag and applied to a method, the property is cached exactly
   * when the flag is truthy: the first access stores the method's result and
   * a later access returns that value without calling the method again, for
   * whatever owner; otherwise each access calls the method.
   */
  lemma FromFlag(x: Val, f: Fn, owner1: string, owner2: string, eval: (Fn, string) -> Val)
    requires !Callable(x)
    ensures var st := Decorated(Made(x), f);
      var a1 := Got(st, owner1, eval);
      var a2 := Got(a1.st, owner2, eval);
      && (st.cached <==> Truthy(x))
      && a1.r == Ok(eval(f, owner1)) && a1.st.calls == 1
      && (Truthy(x) ==> a1.st.cache == Some(eval(f, owner1)) && a2 == Access(Ok(eval(f, owner1)), a1.st))
      && (!Truthy(x) ==> a2.r == Ok(eval(f, owner2)) && a2.st.calls == 2)
  {
  }

  /** Without a method, an access raises and changes nothing, unless a value is already stored in cached mode. */
  lemma FlagWithoutMethod(x: Val, owner: string, eval: (Fn, string) -> Val)
    requires !Callable(x)
    ensures Got(Made(x), owner, eval) == Access(Err(AttributeError("method")), Made(x))
  {
  }

  /** In cached mode with a stored value, an access changes nothing and returns it, whatever the method and owner. */
  lemma CachedStable(st: DState, owner: string, eval: (Fn, string) -> Val)
    requires st.cached && st.cache.Some?
    ensures Got(st, owner, eval) == Access(Ok(st.cache.value), st)
  {
  }

  /** Assigning a callable replaces the method and leaves a stored value and the mode in place. */
  lemma SetCallable(st: DState, g: Fn, owner: string, eval: (Fn, string) -> Val)
    ensures SetTo(st, Plain(FuncVal(g))) == st.(fn := Calls(g))
    ensures st.cached && st.cache.Some? ==> Got(SetTo(st, Plain(FuncVal(g))), owner, eval).r == Ok(st.cache.value)
  {
  }

  /** Assigning a plain value in cached mode stores it, and the next access returns it. */
  lemma SetPlainCached(st: DState, v: Val, owner: string, eval: (Fn, string) -> Val)
    requires st.cached && !Callable(v)
    ensures SetTo(st, Plain(v)) == st.(cache := Some(v))
    ensures Got(SetTo(st, Plain(v)), owner, eval) == Access(Ok(v), SetTo(st, Plain(v)))
  {
  }

  /** Assigning a plain value in uncached mode makes every access return that constant. */
  lemma SetPlainUncached(st: DState, v: Val, owner: string, eval: (Fn, string) -> Val)
    requires !st.cached && !Callable(v)
    ensures SetTo(st, Plain(v)) == st.(fn := ConstOf(v))
    ensures Got(SetTo(st, Plain(v)), owner, eval).r == Ok(v)
  {
  }

  /** A `property_val(value, cached)` first sets the mode to `bool(cached)`, then assigns the value. */
  lemma SetPropertyVal(st: DState, v: Val, c: Val)
    ensures SetTo(st, PropertyVal(v, c)) == SetTo(st.(cached := Truthy(c)), Plain(v))
    ensures SetTo(st, PropertyVal(v, c)).cached <==> Truthy(c)
  {
  }

  /** In cached mode, deleting drops the stored value, so the next access calls the method again. */
  lemma DeleteRecomputes(st: DState, owner: string, eval: (Fn, string) -> Val)
    requires st.cached && st.cache.Some? && st.fn.Calls?
    ensures Deleted(st) == Deletion(st.(cache := None), None)
    ensures var a := Got(Deleted(st).st, owner, eval);
      a.r == Ok(eval(st.fn.f, owner)) && a.st.calls == st.calls + 1 && a.st.cache == Some(eval(st.fn.f, owner))
  {
  }

  /** In uncached mode, deleting changes nothing; in cached mode with nothing stored it raises. */
  lemma DeleteOtherwise(st: DState)
    ensures !st.cached ==> Deleted(st) == Deletion(st, None)
    ensures st.cached && st.cache.None? ==> Deleted(st) == Deletion(st, Some(AttributeError("_cache")))
  {
  }

  /** Every access in cached mode leaves a value stored, and a stored value is never replaced by an access. */
  lemma GotKeepsCache(st: DState, owner: string, eval: (Fn, string) -> Val)
    requires st.cached
    ensures var a := Got(st, owner, eval);
      a.r.Ok? ==> a.st.cache == Some(a.r.value)
    ensures st.cache.Some? ==> Got(st, owner, eval).st.cache == st.cache
  {
  }

  /** The descriptor object. */
  class Descriptor {
    var fn: Method
    var cached: bool
    var cache: Option<Val>
    var calls: nat
    var name: string

    function State(): DState
      reads this
    {
      DState(fn, cached, cache, calls)
    }

    /** `classproperty(method_or_cached)` */
    constructor (x: Val)
      ensures State() == Made(x) && name == ""
    {
      if Callable(x) {
        fn, cached := Calls(x.f), false;
      } else {
        fn, cached := NoMethod, Truthy(x);
      }
      cache, calls, name := None, 0, "";
    }

    /** `__call__(method)`, which returns the descriptor itself. */
    method Apply(f: Fn) returns (r: Descriptor)
      modifies this
      ensures r == this
      ensures State() == Decorated(old(State()), f) && name == old(name)
    {
      fn := Calls(f);
      r := this;
    }

    /** `__set_name__(owner, name)` */
    method SetName(n: string)
      modifies this
      ensures name == n && State() == old(State())
    {
      name := n;
    }

    /** `__get__(ins, owner)` */
    method Get(owner: string, eval: (Fn, string) -> Val) returns (r: Result<Val, DescError>)
      modifies this
      ensures Access(r, State()) == Got(old(State()), owner, eval) && name == old(name)
    {
      if !cached || cache.None? {
        r := Invoked(State(), owner, eval);
        if r.Err? {
          return;
        }
        calls := calls + 1;
        if cached {
          cache := Some(r.value);
        }
      } else {
        r := Ok(cache.value);
      }
    }

    /** `__set__(ins, value)` */
    method Set(a: Assigned)
      modifies this
      ensures State() == SetTo(old(State()), a) && name == old(name)
    {
      var v := a.v;
      if a.PropertyVal? {
        cached := Truthy(a.c);
      }
      if Callable(v) {
        fn := Calls(v.f);
      } else if cached {
        cache := Some(v);
      } else {
        fn := ConstOf(v);
      }
    }

    /** `__delete__(ins)` */
    method Delete() returns (err: Option<DescError>)
      modifies this
      ensures Deletion(State(), err) == Deleted(old(State())) && name == old(name)
    {
      err := None;
      if cached {
        if cache.None? {
          return Some(AttributeError("_cache"));
        }
        cache := None;
      }
    }
  }
}
