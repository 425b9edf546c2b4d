/** The lookup index of lib/Lookup.js: constructors indexed by their
    prototype's `code` and `name`, and construction by code or by name with a
    fallback to the built-in Error. */
module LookupIndex {
  import opened Wrappers
  import opened PError

  /** A namespace entry as the index reads it: a function, with what its
      prototype holds under `name` (as a key text) and under `code` (None when
      the prototype has no `code`), or any value that is not a function (a
      `NonFunction` never holds an `Fn` value: every function is a `Function`
      entry). */
  datatype Entry =
    | Function(ctor: Ctor, protoName: string, protoCode: Option<int>)
    | NonFunction(value: Value)

  /** The namespace object's (key, entry) pairs in iteration order. */
  type Namespace = seq<(string, Entry)>

  /** A code query: an integer, or a key that is the decimal text of no
      integer (such as 'LOL'). */
  datatype CodeKey = Numeric(n: int) | NonNumeric(text: string)

  function CodeKeyOf(e: Entry): Option<int>
  {
    if e.Function? then e.protoCode else None
  }

  function NameKeyOf(e: Entry): Option<string>
  {
    if e.Function? then Some(e.protoName) else None
  }

  /** Entry `i` of `ns` registers a constructor under `k`. */
  predicate Registers<K(==)>(ns: Namespace, key: Entry -> Option<K>, i: int, k: K)
    requires 0 <= i < |ns|
  {
    ns[i].1.Function? && key(ns[i].1) == Some(k)
  }

  /** The map the index loop leaves behind: every function entry stored under
      its key, in iteration order, a later entry replacing an earlier one. */
  function IndexBy<K(==)>(ns: Namespace, key: Entry -> Option<K>): map<K, Ctor>
  {
    if ns == [] then map[]
    else
      var rest := IndexBy(ns[..|ns| - 1], key);
      var e := ns[|ns| - 1].1;
      if e.Function? && key(e).Some? then rest[key(e).value := e.ctor] else rest
  }

  /** A key is indexed exactly when some function entry has it, and what is
      stored under it is the constructor of one of those entries. */
  lemma {:induction false} IndexedKeys<K>(ns: Namespace, key: Entry -> Option<K>, k: K)
    ensures k in IndexBy(ns, key) <==> exists i :: 0 <= i < |ns| && Registers(ns, key, i, k)
    ensures k in IndexBy(ns, key) ==>
              exists i :: 0 <= i < |ns| && Registers(ns, key, i, k) && IndexBy(ns, key)[k] == ns[i].1.ctor
  {
    if ns != [] {
      var init := ns[..|ns| - 1];
      IndexedKeys(init, key, k);
      var last := |ns| - 1;
      if Registers(ns, key, last, k) {
        assert IndexBy(ns, key)[k] == ns[last].1.ctor;
      } else {
        assert IndexBy(ns, key) == IndexBy(init, key) || ns[last].1.Function?;
        forall i | 0 <= i < |init|
          ensures Registers(init, key, i, k) <==> Registers(ns, key, i, k)
        {
          assert init[i] == ns[i];
        }
        if k in IndexBy(init, key) {
          var i :| 0 <= i < |init| && Registers(init, key, i, k) && IndexBy(init, key)[k] == init[i].1.ctor;
          assert Registers(ns, key, i, k) && IndexBy(ns, key)[k] == ns[i].1.ctor;
        }
      }
    }
  }

  /** Last write wins: a function entry that no later entry's key matches is
      the one stored under its key. */
  lemma {:induction false} LastRegistrationWins<K>(ns: Namespace, key: Entry -> Option<K>, i: int, k: K)
    requires 0 <= i < |ns| && Registers(ns, key, i, k)
    requires forall j :: i < j < |ns| ==> !Registers(ns, key, j, k)
    ensures k in IndexBy(ns, key) && IndexBy(ns, key)[k] == ns[i].1.ctor
  {
    var init := ns[..|ns| - 1];
    if i < |ns| - 1 {
      assert init[i] == ns[i];
      forall j | i < j < |init|
        ensures !Registers(init, key, j, k)
      {
        assert init[j] == ns[j];
        assert !Registers(ns, key, j, k);
      }
      LastRegistrationWins(init, key, i, k);
      assert !Registers(ns, key, |ns| - 1, k);
      assert IndexBy(ns, key)[k] == IndexBy(init, key)[k];
    }
  }

  /** The function entries of a namespace, in order. */
  function Functions(ns: Namespace): Namespace
  {
    if ns == [] then []
    else Functions(ns[..|ns| - 1]) + (if ns[|ns| - 1].1.Function? then [ns[|ns| - 1]] else [])
  }

  /** Entries that are not functions leave the index as it would be without
      them. */
  lemma {:induction false} OnlyFunctionsIndexed<K>(ns: Namespace, key: Entry -> Option<K>)
    ensures IndexBy(Functions(ns), key) == IndexBy(ns, key)
  {
    if ns != [] {
      var init := ns[..|ns| - 1];
      OnlyFunctionsIndexed(init, key);
      if ns[|ns| - 1].1.Function? {
        var fs := Functions(ns);
        assert fs == Functions(init) + [ns[|ns| - 1]];
        assert fs[..|fs| - 1] == Functions(init);
        assert fs[|fs| - 1] == ns[|ns| - 1];
      } else {
        assert Functions(ns) == Functions(init) + [];
        assert Functions(init) + [] == Functions(init);
      }
    }
  }

  /** The constructor `lookup.code(key, ...)` resolves to. */
  function ByCode(codes: map<int, Ctor>, key: CodeKey): Ctor
  {
    if key.Numeric? && key.n in codes then codes[key.n] else GenericError
  }

  /** The constructor `lookup.name(key, ...)` resolves to. */
  function ByName(names: map<string, Ctor>, key: string): Ctor
  {
    if key in names then names[key] else GenericError
  }

  /** The index object: `_codes` and `_names`. */
  class Lookup {
    var codes: map<int, Ctor>
    var names: map<string, Ctor>

    /** `new Lookup(errors)`: one pass over the namespace. */
    constructor (errors: Namespace)
      ensures codes == IndexBy(errors, CodeKeyOf)
      ensures names == IndexBy(errors, NameKeyOf)
    {
      codes := map[];
      names := map[];
      new;
      var i := 0;
      while i < |errors|
        invariant 0 <= i <= |errors|
        invariant codes == IndexBy(errors[..i], CodeKeyOf)
        invariant names == IndexBy(errors[..i], NameKeyOf)
      {
        var e := errors[i].1;
        if e.Function? {
          if e.protoCode.Some? {
            codes := codes[e.protoCode.value := e.ctor];
          }
          names := names[e.protoName := e.ctor];
        }
        assert errors[..i + 1][..i] == errors[..i];
        i := i + 1;
      }
      assert errors[..|errors|] == errors;
    }

    /** `construct(ctor, args)`: an instance of `c` built from the forwarded
        arguments. */
    method Construct(c: Ctor, m: Message, data: Value) returns (inst: Instance)
      ensures inst == Construction(c, m, data)
    {
      match c
      case Made(k) =>
        inst := k.New(m, data);
      case _ =>
        inst := Instance(c, NativeFields(m));
    }

    /** `lookup.code(key, m, data)`. */
    method Code(key: CodeKey, m: Message, data: Value) returns (inst: Instance)
      ensures inst == Construction(ByCode(codes, key), m, data)
      ensures key.Numeric? && key.n in codes ==> inst.kind == codes[key.n]
      ensures !(key.Numeric? && key.n in codes) ==>
                inst.kind == GenericError && PError.Name(inst) == Str("Error") && "code" !in inst.props
    {
      var c := GenericError;
      if key.Numeric? && key.n in codes {
        c := codes[key.n];
      }
      inst := Construct(c, m, data);
    }

    /** `lookup.name(key, m, data)`. */
    method Name(key: string, m: Message, data: Value) returns (inst: Instance)
      ensures inst == Construction(ByName(names, key), m, data)
      ensures key in names ==> inst.kind == names[key]
      ensures key !in names ==>
                inst.kind == GenericError && PError.Name(inst) == Str("Error") && "code" !in inst.props
    {
      var c := GenericError;
      if key in names {
        c := names[key];
      }
      inst := Construct(c, m, data);
    }
  }

  /** An empty namespace gives an empty index. */
  lemma EmptyNamespace()
    ensures IndexBy([], CodeKeyOf) == map[] && IndexBy([], NameKeyOf) == map[]
  {
  }

  // ---------------------------------------------------------------------------
  // Kinds made by the factory, placed in a namespace

  /** How the index sees a kind made by lib/index.js as written: its
      prototype carries `name` but never `code`. */
  function Registered(k: Kind): Entry
  {
    Function(Made(k), ValueText(k.name), None)
  }

  /** How the index would see the same kind if the factory also set the
      declared code on the prototype. */
  function RegisteredWithCode(k: Kind): Entry
  {
    Function(Made(k), ValueText(k.name), k.code)
  }

  /** A namespace of factory kinds, as written. */
  function AsWritten(kinds: seq<(string, Kind)>): (ns: Namespace)
    ensures |ns| == |kinds|
  {
    seq(|kinds|, i requires 0 <= i < |kinds| => (kinds[i].0, Registered(kinds[i].1)))
  }

  /** The same namespace with codes on the prototypes. */
  function WithCodes(kinds: seq<(string, Kind)>): (ns: Namespace)
    ensures |ns| == |kinds|
  {
    seq(|kinds|, i requires 0 <= i < |kinds| => (kinds[i].0, RegisteredWithCode(kinds[i].1)))
  }

  /** As written, no factory kind ever reaches the code index, so every code
      lookup falls back to Error. */
  lemma CodeIndexMissesFactoryKinds(kinds: seq<(string, Kind)>, key: CodeKey)
    ensures IndexBy(AsWritten(kinds), CodeKeyOf) == map[]
    ensures ByCode(IndexBy(AsWritten(kinds), CodeKeyOf), key) == GenericError
  {
    var ns := AsWritten(kinds);
    forall n: int
      ensures n !in IndexBy(ns, CodeKeyOf)
    {
      forall i | 0 <= i < |ns|
        ensures !Registers(ns, CodeKeyOf, i, n)
      {
        assert ns[i].1 == Registered(kinds[i].1);
      }
      IndexedKeys(ns, CodeKeyOf, n);
    }
  }

  /** A factory kind is found by its name when no later kind shares it, in
      the namespace as written and with codes on the prototypes alike. */
  lemma FactoryKindFoundByName(kinds: seq<(string, Kind)>, i: int)
    requires 0 <= i < |kinds|
    requires forall j :: i < j < |kinds| ==> ValueText(kinds[j].1.name) != ValueText(kinds[i].1.name)
    ensures ByName(IndexBy(AsWritten(kinds), NameKeyOf), ValueText(kinds[i].1.name)) == Made(kinds[i].1)
    ensures ByName(IndexBy(WithCodes(kinds), NameKeyOf), ValueText(kinds[i].1.name)) == Made(kinds[i].1)
  {
    var key := ValueText(kinds[i].1.name);
    var ns, ns' := AsWritten(kinds), WithCodes(kinds);
    forall j | i < j < |ns|
      ensures !Registers(ns, NameKeyOf, j, key) && !Registers(ns', NameKeyOf, j, key)
    {
      assert ns[j].1 == Registered(kinds[j].1) && ns'[j].1 == RegisteredWithCode(kinds[j].1);
    }
    assert ns[i].1 == Registered(kinds[i].1) && ns'[i].1 == RegisteredWithCode(kinds[i].1);
    LastRegistrationWins(ns, NameKeyOf, i, key);
    LastRegistrationWins(ns', NameKeyOf, i, key);
  }

  /** With codes on the prototypes, a kind is found by its code when no later
      kind shares it. */
  lemma FactoryKindFoundByCode(kinds: seq<(string, Kind)>, i: int)
    requires 0 <= i < |kinds| && kinds[i].1.code.Some?
    requires forall j :: i < j < |kinds| ==> kinds[j].1.code != kinds[i].1.code
    ensures ByCode(IndexBy(WithCodes(kinds), CodeKeyOf), Numeric(kinds[i].1.code.value)) == Made(kinds[i].1)
  {
    var ns := WithCodes(kinds);
    var code := kinds[i].1.code.value;
    forall j | i < j < |ns|
      ensures !Registers(ns, CodeKeyOf, j, code)
    {
      assert ns[j].1 == RegisteredWithCode(kinds[j].1);
    }
    assert ns[i].1 == RegisteredWithCode(kinds[i].1);
    LastRegistrationWins(ns, CodeKeyOf, i, code);
  }

  /** With codes on the prototypes, looking a kind up by its code and by its
      name builds the same instance from the same arguments. */
  lemma CodeAndNameLookupsAgree(kinds: seq<(string, Kind)>, i: int, m: Message, data: Value)
    requires 0 <= i < |kinds| && kinds[i].1.code.Some?
    requires forall j :: i < j < |kinds| ==> kinds[j].1.code != kinds[i].1.code
    requires forall j :: i < j < |kinds| ==> ValueText(kinds[j].1.name) != ValueText(kinds[i].1.name)
    ensures var ns := WithCodes(kinds);
            var byCode := Construction(ByCode(IndexBy(ns, CodeKeyOf), Numeric(kinds[i].1.code.value)), m, data);
            var byName := Construction(ByName(IndexBy(ns, NameKeyOf), ValueText(kinds[i].1.name)), m, data);
            byCode == byName && byCode == Construction(Made(kinds[i].1), m, data)
  {
    FactoryKindFoundByCode(kinds, i);
    FactoryKindFoundByName(kinds, i);
  }
}
