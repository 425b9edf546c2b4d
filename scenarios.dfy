/** Clients of the model: the declarations and checks of the repository's
    tests, and a wrapping example, stated against the
    contracts of `PError` and `LookupIndex`. */
module Scenarios {
  import opened Wrappers
  import opened PError
  import opened LookupIndex

  /** tests/perror-test.js, testSimple: a kind with a name only. */
  method SimpleKind()
  {
    var r := Declare(Text("SimpleError"), Missing, Missing, Missing);
    assert r.Some?;
    var k := r.value;
    assert ProtoName(Made(k)) == Str("SimpleError");
    var e := k.New(Plain("Hey!"), Undefined);
    assert IsA(e, GenericError) && IsA(e, Made(k));
    assert "code" !in e.props;
    assert e.props["name"] == Str("SimpleError");
    assert MessageOf(e) == Str("Hey!");
    assert "data" !in e.props && "httpCode" !in e.props;
    var e2 := k.New(Plain("Hey!"), Obj(map["a" := Int(1)]));
    assert MessageOf(e2) == Str("Hey!");
    assert e2.props["data"] == Obj(map["a" := Int(1)]);
  }

  /** testMessage and testCode: a prefix, and a code. */
  method PrefixAndCode()
  {
    var r := Declare(Text("MessageError"), Text("Test error"), Missing, Missing);
    assert r.Some?;
    var e := r.value.New(Plain("Hey!"), Undefined);
    assert "code" !in e.props;
    assert MessageOf(e) == Str("Test error: Hey!");

    var r2 := Declare(Number(100), Text("MessageError"), Missing, Missing);
    assert r2.Some?;
    var e2 := r2.value.New(Plain("Hey!"), Undefined);
    assert e2.props["code"] == Int(100);

    var r3 := Declare(NumericText("100", 100), Text("MessageError"), Missing, Missing);
    assert r3.Some?;
    var e3 := r3.value.New(Plain("Hey!"), Undefined);
    assert e3.props["code"] == Int(100);
  }

  /** testInheritance: a built-in parent in the prefix slot. */
  method Inheritance()
  {
    var typeError := BuiltIn("TypeError");
    assert Normalised(Text("NumberError"), Callable(typeError), Missing, Missing)
        == Decl(Missing, Text("NumberError"), Missing, Callable(typeError));
    var r := Declare(Text("NumberError"), Callable(typeError), Missing, Missing);
    assert r.Some?;
    var k := r.value;
    assert k.prefix == "" && k.parent == typeError;
    assert k.lineage == [typeError, GenericError];
    var e := k.New(Plain("Hey!"), Undefined);
    assert IsA(e, typeError) && IsA(e, GenericError);
    assert !IsA(Instance(GenericError, NativeFields(Undef)), typeError);
    assert MessageOf(e) == Str("Hey!");
  }

  /** Two kinds with the same parent: neither's instances are the other's. */
  method Siblings()
  {
    var r1 := Declare(Text("A"), Missing, Missing, Missing);
    assert r1.Some?;
    var a := r1.value;
    var r2 := Declare(Text("B"), Missing, Missing, Missing);
    assert r2.Some?;
    var b := r2.value;
    var ea := a.New(Plain("x"), Undefined);
    var eb := b.New(Plain("x"), Undefined);
    assert !IsA(ea, Made(b)) && !IsA(eb, Made(a));
  }

  /** testHttpCode: chaining `httpCode`. */
  method HttpCodeChaining()
  {
    var r := Declare(Text("NotFoundError"), Text("Not found"), Missing, Missing);
    assert r.Some?;
    var k := r.value.HttpCode(Int(404));
    var e := k.New(Plain("Hey!"), Undefined);
    assert "code" !in e.props;
    assert e.props["httpCode"] == Int(404);
    assert MessageOf(e) == Str("Not found: Hey!");
  }

  /** Chaining `httpCode(v)` twice: the second call changes no instance. */
  method HttpCodeTwice(k: Kind, v: Value, m: Message, data: Value) returns (once: Instance, twice: Instance)
    modifies k
    ensures once == twice
  {
    var k1 := k.HttpCode(v);
    once := k1.New(m, data);
    ghost var extras := k.extraFields;
    var k2 := k1.HttpCode(v);
    assert k.extraFields == extras;
    twice := k2.New(m, data);
  }

  /** Wrapping: the inner error's fields win, the message keeps both
      prefixes, and the identity stays the outer kind's. */
  method Wrapping()
  {
    assert Normalised(Number(1024), Text("O"), Text("Outer"), Missing) == Decl(Number(1024), Text("O"), Text("Outer"), Missing);
    assert Normalised(Number(10), Text("I"), Text("Inner"), Missing) == Decl(Number(10), Text("I"), Text("Inner"), Missing);
    var ro := Declare(Number(1024), Text("O"), Text("Outer"), Missing);
    var ri := Declare(Number(10), Text("I"), Text("Inner"), Missing);
    assert ro.Some? && ri.Some?;
    var outer := ro.value.HttpCode(Int(500));
    var inner := ri.value.HttpCode(Int(501));
    var a1 := Obj(map["a" := Int(1)]);
    var e := InnerError(inner, a1);
    WrapInner(outer, inner, e, a1);
  }

  method InnerError(inner: Kind, a1: Value) returns (e: Instance)
    requires inner.prefix == "Inner: " && inner.name == Str("I")
    requires inner.extraFields == map["code" := Int(10), "httpCode" := Int(501)]
    requires a1 != Undefined
    ensures e.kind == Made(inner)
    ensures e.props.Keys == {"name", "message", "data", "code", "httpCode"}
    ensures e.props["name"] == Str("I") && e.props["message"] == Str("Inner: Hey!") && e.props["data"] == a1
    ensures e.props["code"] == Int(10) && e.props["httpCode"] == Int(501)
  {
    e := inner.New(Plain("Hey!"), a1);
    assert "Inner: " + MessageText(Plain("Hey!")) == "Inner: Hey!";
  }

  method WrapInner(outer: Kind, inner: Kind, e: Instance, a1: Value)
    requires outer != inner && outer.prefix == "Outer: " && outer.lineage == [GenericError]
    requires outer.extraFields == map["code" := Int(1024), "httpCode" := Int(500)]
    requires e.kind == Made(inner)
    requires e.props.Keys == {"name", "message", "data", "code", "httpCode"}
    requires e.props["name"] == Str("I") && e.props["message"] == Str("Inner: Hey!") && e.props["data"] == a1
    requires e.props["code"] == Int(10) && e.props["httpCode"] == Int(501)
  {
    assert "Outer: " + ValueText(MessageOf(e)) == "Outer: Inner: Hey!";
    var w := outer.New(Wrap(e), Obj(map["b" := Int(2)]));
    assert w.props["name"] == Str("I");
    assert w.props["code"] == Int(10);
    assert w.props["httpCode"] == Int(501);
    assert w.props["data"] == a1;
    assert MessageOf(w) == Str("Outer: Inner: Hey!");
    assert IsA(w, Made(outer)) && !IsA(w, Made(inner));
  }

  /** tests/lookup-test.js: the namespace of three coded kinds. */
  method LookupByCodeAndName()
  {
    var r1 := Declare(Number(403), Text("AuthError"), Text("Unauthorized"), Missing);
    var r2 := Declare(Number(404), Text("NotFound"), Text("Not found"), Missing);
    var r3 := Declare(Number(500), Text("ServerError"), Text("Server Error"), Missing);
    assert r1.Some? && r2.Some? && r3.Some?;
    var kinds := [("AuthError", r1.value), ("NotFound", r2.value), ("ServerError", r3.value)];
    LookupAsWritten(kinds);
    LookupWithCodes(kinds);
  }

  /** The checks of the test against the factory as written: the name
      lookups hold, the lookup of code 403 falls back to Error. */
  method LookupAsWritten(kinds: seq<(string, Kind)>)
    requires |kinds| == 3
    requires kinds[0].1.name == Str("AuthError") && kinds[0].1.extraFields == map["code" := Int(403)]
    requires kinds[1].1.name == Str("NotFound") && kinds[2].1.name == Str("ServerError")
  {
    var lookup := new Lookup(AsWritten(kinds));
    CodeIndexMissesFactoryKinds(kinds, Numeric(403));
    var byCode := lookup.Code(Numeric(403), Undef, Undefined);
    assert Name(byCode) == Str("Error");
    FactoryKindFoundByName(kinds, 0);
    var byName := lookup.Name("AuthError", Undef, Undefined);
    assert byName.props["code"] == Int(403);
    var unknown := lookup.Code(NonNumeric("LOL"), Undef, Undefined);
    assert "code" !in unknown.props;
  }

  /** The same checks with codes on the prototypes: code 403 finds AuthError,
      code 999 falls back to Error. */
  method LookupWithCodes(kinds: seq<(string, Kind)>)
    requires |kinds| == 3
    requires kinds[0].1.name == Str("AuthError") && kinds[0].1.code == Some(403)
    requires kinds[0].1.extraFields == map["code" := Int(403)]
    requires kinds[1].1.code == Some(404) && kinds[2].1.code == Some(500)
  {
    var ns := WithCodes(kinds);
    var lookup := new Lookup(ns);
    FactoryKindFoundByCode(kinds, 0);
    forall i | 0 <= i < |ns|
      ensures !Registers(ns, CodeKeyOf, i, 999)
    {
      assert ns[i].1 == RegisteredWithCode(kinds[i].1);
    }
    IndexedKeys(ns, CodeKeyOf, 999);
    var found := lookup.Code(Numeric(403), Undef, Undefined);
    assert Name(found) == Str("AuthError");
    var missing := lookup.Code(Numeric(999), Undef, Undefined);
    assert Name(missing) == Str("Error");
  }
}
