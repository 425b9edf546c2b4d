/** The error-kind factory of lib/index.js.

    `Declare` is the exported factory function: it normalises its positional
    arguments, and builds a `Kind` — the constructor `E` together with the
    variables its closure keeps (name, message prefix, code, parent and the
    mutable `extraFields` map). `Kind.New` is `new E(message, data)`;
    `Kind.HttpCode` and `Kind.Extra` are the two chaining methods. */
module PError {
  import opened Wrappers

  // ---------------------------------------------------------------------------
  // Values

  /** Decimal digits of a natural number. */
  function Digits(n: nat): string
    decreases n
  {
    if n < 10 then [('0' as int + n) as char] else Digits(n / 10) + Digits(n % 10)
  }

  /** The text JavaScript's String(n) gives for an integer. */
  function IntText(n: int): string
  {
    if n < 0 then "-" + Digits(-n) else Digits(n)
  }

  /** A constructor an instance can be built from or inherit from: the
      built-in Error, another built-in error type (TypeError, ...), or a kind
      made by the factory. */
  datatype Ctor = GenericError | BuiltIn(builtinName: string) | Made(kind: Kind)

  /** A property value. */
  datatype Value =
    | Undefined
    | Int(i: int)
    | Str(s: string)
    | Bool(b: bool)
    | Obj(fields: map<string, Value>)
    | Fn(ctor: Ctor)

  /** String conversion of a value (a function's source text is not modelled). */
  function ValueText(v: Value): string
  {
    match v
    case Undefined => "undefined"
    case Int(i) => IntText(i)
    case Str(s) => s
    case Bool(b) => if b then "true" else "false"
    case Obj(_) => "[object Object]"
    case Fn(_) => "function"
  }

  /** An error instance: the constructor it is an instance of (its is-a
      identity) and its own enumerable properties. */
  datatype Instance = Instance(kind: Ctor, props: map<string, Value>)

  /** The first argument of an error constructor: a plain message (any
      non-error value, already converted to text), an error to wrap, or
      nothing. */
  datatype Message = Plain(text: string) | Wrap(inner: Instance) | Undef

  // ---------------------------------------------------------------------------
  // Is-a

  /** The constructors whose prototypes lie above `c`'s prototype. */
  function Ancestors(c: Ctor): seq<Ctor>
  {
    match c
    case GenericError => []
    case BuiltIn(_) => [GenericError]
    case Made(k) => k.lineage
  }

  /** `i instanceof c`. */
  predicate IsA(i: Instance, c: Ctor)
  {
    c == i.kind || c in Ancestors(i.kind)
  }

  /** `c` is Error or inherits from it. */
  predicate Rooted(c: Ctor)
  {
    c == GenericError || GenericError in Ancestors(c)
  }

  // ---------------------------------------------------------------------------
  // Reading an instance through its prototype

  /** The `name` a constructor's prototype carries. */
  function ProtoName(c: Ctor): Value
  {
    match c
    case GenericError => Str("Error")
    case BuiltIn(n) => Str(n)
    case Made(k) => k.name
  }

  /** `i.name`: the own field, else the prototype's. */
  function Name(i: Instance): Value
  {
    if "name" in i.props then i.props["name"] else ProtoName(i.kind)
  }

  /** `i.message`: the own field, else Error.prototype's empty message. */
  function MessageOf(i: Instance): Value
  {
    if "message" in i.props then i.props["message"] else Str("")
  }

  /** The text of an error, as the host's Error.prototype.toString gives it. */
  function ErrorText(i: Instance): string
  {
    var n := Name(i);
    var nameText := if n.Undefined? then "Error" else ValueText(n);
    var m := MessageOf(i);
    var messageText := if m.Undefined? then "" else ValueText(m);
    if nameText == "" then messageText
    else if messageText == "" then nameText
    else nameText + ": " + messageText
  }

  /** String conversion of a constructor's message argument. */
  function MessageText(m: Message): string
  {
    match m
    case Plain(s) => s
    case Wrap(i) => ErrorText(i)
    case Undef => "undefined"
  }

  // ---------------------------------------------------------------------------
  // Factory arguments

  /** A positional argument of the factory, classified the way lib/index.js
      inspects it: `Number` and `NumericText` are the values `isNaN` finds
      numeric (`NumericText` carries the number unary `+` makes of the text),
      `Text` is any other string, `Callable` a constructor and `Missing` an
      omitted argument. */
  datatype Arg =
    | Missing
    | Number(n: int)
    | NumericText(text: string, n: int)
    | Text(s: string)
    | Callable(ctor: Ctor)

  predicate NotANumber(a: Arg)
  {
    a.Missing? || a.Text? || a.Callable?
  }

  predicate Truthy(a: Arg)
  {
    match a
    case Missing => false
    case Number(n) => n != 0
    case NumericText(t, _) => t != ""
    case Text(s) => s != ""
    case Callable(_) => true
  }

  /** String conversion of an argument. */
  function ArgText(a: Arg): string
  {
    match a
    case Missing => "undefined"
    case Number(n) => IntText(n)
    case NumericText(t, _) => t
    case Text(s) => s
    case Callable(_) => "function"
  }

  /** The argument stored as a property value. */
  function ArgValue(a: Arg): Value
  {
    match a
    case Missing => Undefined
    case Number(n) => Int(n)
    case NumericText(t, _) => Str(t)
    case Text(s) => Str(s)
    case Callable(c) => Fn(c)
  }

  /** The four parameter variables of the factory. */
  datatype Decl = Decl(code: Arg, name: Arg, message: Arg, superCtor: Arg)

  /** The code as stored: `+code` when a code is present. */
  function CodeOf(a: Arg): Option<int>
  {
    match a
    case Number(n) => Some(n)
    case NumericText(_, n) => Some(n)
    case _ => None
  }

  /** The parameter variables after the two reassignment steps: a first
      argument that is not a number shifts the others left, then a
      constructor found in the prefix slot moves to the parent slot. */
  function Normalised(code: Arg, name: Arg, message: Arg, superCtor: Arg): (d: Decl)
    ensures NotANumber(code) ==> d.code == Missing && d.name == code
    ensures !NotANumber(code) ==> d.code == code && d.name == name
    ensures CodeOf(d.code) == if NotANumber(code) then None else Some(code.n)
    ensures !d.message.Callable?
    ensures var prefixSlot := if NotANumber(code) then name else message;
            var parentSlot := if NotANumber(code) then message else superCtor;
            if prefixSlot.Callable? then d.message == Missing && d.superCtor == prefixSlot
            else d.message == prefixSlot && d.superCtor == parentSlot
  {
    var shifted := if NotANumber(code) then Decl(Missing, code, name, message)
                   else Decl(code, name, message, superCtor);
    if shifted.message.Callable? then shifted.(message := Missing, superCtor := shifted.message)
    else shifted
  }

  /** The message prefix the closure keeps. */
  function PrefixOf(a: Arg): string
  {
    if Truthy(a) then ArgText(a) + ": " else ""
  }

  /** The parent constructor, `superCtor || Error`; None where the host's
      util.inherits rejects a truthy parent that is not a constructor. */
  function SuperOf(a: Arg): Option<Ctor>
  {
    if !Truthy(a) then Some(GenericError)
    else if a.Callable? then Some(a.ctor)
    else None
  }

  /** The initial extra fields: the code, if there is one. */
  function CodeField(code: Option<int>): map<string, Value>
  {
    if code.Some? then map["code" := Int(code.value)] else map[]
  }

  // ---------------------------------------------------------------------------
  // Instance fields

  /** The fields set before any wrapping: name, prefixed message, data when
      defined, then every extra field. */
  function PlainFields(name: Value, prefix: string, extras: map<string, Value>, m: Message, data: Value): map<string, Value>
  {
    map["name" := name, "message" := Str(prefix + MessageText(m))]
    + (if data == Undefined then map[] else map["data" := data])
    + extras
  }

  /** The own fields of `new E(m, data)` for a kind with this name, prefix and
      extra fields. */
  function Fields(name: Value, prefix: string, extras: map<string, Value>, m: Message, data: Value): (r: map<string, Value>)
    ensures r.Keys == {"name", "message"} + (if data == Undefined then {} else {"data"}) + extras.Keys
                      + (if m.Wrap? then m.inner.props.Keys else {})
    // name, data and extra fields, unless an extra field or a wrapped error's field replaces them
    ensures "name" !in extras && (!m.Wrap? || "name" !in m.inner.props) ==> r["name"] == name
    ensures data != Undefined && "data" !in extras && (!m.Wrap? || "data" !in m.inner.props) ==> r["data"] == data
    ensures !m.Wrap? ==> forall key :: key in extras ==> r[key] == extras[key]
    // the message
    ensures !m.Wrap? && "message" !in extras ==> r["message"] == Str(prefix + MessageText(m))
    ensures m.Wrap? ==> r["message"] == Str(prefix + ValueText(MessageOf(m.inner)))
    // every other field of a wrapped error
    ensures m.Wrap? ==> forall key :: key in m.inner.props && key != "message" ==> r[key] == m.inner.props[key]
  {
    var own := PlainFields(name, prefix, extras, m, data);
    if m.Wrap? then (own + m.inner.props)["message" := Str(prefix + ValueText(MessageOf(m.inner)))]
    else own
  }

  /** The own fields of `new Error(m)` (or of another built-in error type):
      the message, when one is given. */
  function NativeFields(m: Message): map<string, Value>
  {
    if m.Undef? then map[] else map["message" := Str(MessageText(m))]
  }

  /** The instance `new c(m, data)` yields. */
  function Construction(c: Ctor, m: Message, data: Value): (i: Instance)
    reads if c.Made? then {c.kind} else {}
    ensures i.kind == c
    ensures c.Made? ==> i.props == Fields(c.kind.name, c.kind.prefix, c.kind.extraFields, m, data)
    ensures !c.Made? ==> "code" !in i.props && Name(i) == ProtoName(c)
  {
    match c
    case Made(k) => Instance(c, Fields(k.name, k.prefix, k.extraFields, m, data))
    case _ => Instance(c, NativeFields(m))
  }

  /** The fields of `src` whose keys are in `done`. */
  function Restrict(src: map<string, Value>, done: set<string>): map<string, Value>
  {
    map key | key in done && key in src :: src[key]
  }

  /** One step of a `for…in` copy loop. */
  lemma CopyStep(base: map<string, Value>, src: map<string, Value>, done: set<string>, key: string)
    requires key in src
    ensures (base + Restrict(src, done))[key := src[key]] == base + Restrict(src, done + {key})
  {
  }

  /** A `for…in` loop copying every own field of `src` onto `target`,
      overwriting: afterwards `target` holds `src`'s fields and keeps its own
      elsewhere. */
  method CopyFields(target: map<string, Value>, src: map<string, Value>) returns (r: map<string, Value>)
    ensures r == target + src
    ensures r.Keys == target.Keys + src.Keys
    ensures forall key :: key in src ==> r[key] == src[key]
    ensures forall key :: key in target && key !in src ==> r[key] == target[key]
  {
    r := target;
    var todo := src.Keys;
    while todo != {}
      invariant todo <= src.Keys
      invariant r == target + Restrict(src, src.Keys - todo)
      decreases todo
    {
      var key :| key in todo;
      CopyStep(target, src, src.Keys - todo, key);
      r := r[key := src[key]];
      todo := todo - {key};
      assert src.Keys - todo == (src.Keys - (todo + {key})) + {key};
    }
    assert Restrict(src, src.Keys) == src;
  }

  // ---------------------------------------------------------------------------
  // Kinds

  /** The constructor `E` the factory returns, with the variables its closure
      keeps. Only `extraFields` changes after creation. */
  class Kind {
    const name: Value
    const prefix: string
    const code: Option<int>
    const parent: Ctor
    const lineage: seq<Ctor>
    var extraFields: map<string, Value>

    /** The lineage is the prototype chain `util.inherits` builds: the parent,
        then the parent's ancestors. */
    predicate Valid()
    {
      lineage == [parent] + Ancestors(parent)
    }

    constructor (name: Value, prefix: string, code: Option<int>, parent: Ctor)
      ensures this.name == name && this.prefix == prefix && this.code == code && this.parent == parent
      ensures Valid()
      ensures extraFields == CodeField(code)
    {
      this.name := name;
      this.prefix := prefix;
      this.code := code;
      this.parent := parent;
      this.lineage := [parent] + Ancestors(parent);
      this.extraFields := CodeField(code);
    }

    /** `E.httpCode(v)`: set one extra field and return the kind itself. */
    method HttpCode(v: Value) returns (self: Kind)
      modifies this
      ensures self == this
      ensures extraFields == old(extraFields)["httpCode" := v]
    {
      extraFields := extraFields["httpCode" := v];
      self := this;
    }

    /** `E.extra(obj)`: copy each own field of `obj` into the extra fields,
        overwriting, and return the kind itself. */
    method Extra(obj: map<string, Value>) returns (self: Kind)
      modifies this
      ensures self == this
      ensures extraFields == old(extraFields) + obj
      ensures forall key :: key in old(extraFields) && key !in obj ==> extraFields[key] == old(extraFields)[key]
    {
      extraFields := CopyFields(extraFields, obj);
      self := this;
    }

    /** `new E(m, data)`: assign name, message and data, copy the extra fields,
        then, when `m` is an error, copy its fields over and re-prefix its
        message. */
    method New(m: Message, data: Value) returns (inst: Instance)
      ensures inst == Instance(Made(this), Fields(name, prefix, extraFields, m, data))
      ensures IsA(inst, Made(this))
    {
      var props: map<string, Value> := map[];
      props := props["name" := name];
      props := props["message" := Str(prefix + MessageText(m))];
      if data != Undefined {
        props := props["data" := data];
      }
      assert props == map["name" := name, "message" := Str(prefix + MessageText(m))]
                      + (if data == Undefined then map[] else map["data" := data]);
      props := CopyFields(props, extraFields);
      assert props == PlainFields(name, prefix, extraFields, m, data);
      if m.Wrap? {
        props := CopyFields(props, m.inner.props);
        props := props["message" := Str(prefix + ValueText(MessageOf(m.inner)))];
      }
      assert props == Fields(name, prefix, extraFields, m, data);
      inst := Instance(Made(this), props);
    }
  }

  /** The factory: normalise the arguments step by step, then build the kind.
      None where the host rejects the parent. */
  method Declare(code: Arg, name: Arg, message: Arg, superCtor: Arg) returns (r: Option<Kind>)
    ensures var d := Normalised(code, name, message, superCtor);
            r.Some? <==> SuperOf(d.superCtor).Some?
    ensures var d := Normalised(code, name, message, superCtor);
            r.Some? ==> && fresh(r.value)
                        && r.value.name == ArgValue(d.name)
                        && r.value.prefix == PrefixOf(d.message)
                        && r.value.code == CodeOf(d.code)
                        && r.value.parent == SuperOf(d.superCtor).value
                        && r.value.Valid()
                        && r.value.extraFields == CodeField(CodeOf(d.code))
  {
    var c, n, m, s := code, name, message, superCtor;
    if NotANumber(c) {
      s := m;
      m := n;
      n := c;
      c := Missing;
    }
    if m.Callable? {
      s := m;
      m := Missing;
    }
    var parent := SuperOf(s);
    if parent.None? {
      return None;
    }
    var k := new Kind(ArgValue(n), PrefixOf(m), CodeOf(c), parent.value);
    r := Some(k);
  }

  // ---------------------------------------------------------------------------
  // Properties

  /** The prefixed message of a plain instance. */
  lemma PlainMessage(prefixArg: Arg, name: Value, extras: map<string, Value>, m: Message, data: Value)
    requires !m.Wrap? && "message" !in extras
    ensures var r := Fields(name, PrefixOf(prefixArg), extras, m, data);
            r["message"] == Str(if Truthy(prefixArg) then ArgText(prefixArg) + ": " + MessageText(m) else MessageText(m))
  {
  }

  /** A freshly declared kind: its instances carry the declared code exactly
      when one was given, as a number, and carry the declared name as an own
      field. */
  lemma DeclaredInstance(code: Arg, name: Arg, message: Arg, superCtor: Arg, m: Message, data: Value)
    requires !m.Wrap?
    ensures var d := Normalised(code, name, message, superCtor);
            var r := Fields(ArgValue(d.name), PrefixOf(d.message), CodeField(CodeOf(d.code)), m, data);
            && r["name"] == ArgValue(d.name)
            && ("code" in r <==> !NotANumber(code))
            && (!NotANumber(code) ==> r["code"] == Int(code.n))
            && ("data" in r <==> data != Undefined)
  {
  }

  /** Wrapping keeps every extra field of the outer kind that the wrapped
      error does not have itself. */
  lemma WrapKeepsOuterExtras(name: Value, prefix: string, extras: map<string, Value>, inner: Instance, data: Value)
    ensures var r := Fields(name, prefix, extras, Wrap(inner), data);
            forall key :: key in extras && key !in inner.props && key != "message" ==> r[key] == extras[key]
  {
  }

  /** Calling `httpCode(v)` twice builds the same instances as calling it once. */
  lemma HttpCodeIdempotent(k: Kind, v: Value, m: Message, data: Value)
    ensures Fields(k.name, k.prefix, k.extraFields["httpCode" := v]["httpCode" := v], m, data)
         == Fields(k.name, k.prefix, k.extraFields["httpCode" := v], m, data)
  {
  }

  /** An instance is-a its kind, its parent and every ancestor of the parent,
      and Error when the parent is Error or inherits from it. */
  lemma InstanceIsA(k: Kind, i: Instance)
    requires i.kind == Made(k) && k.Valid()
    ensures IsA(i, Made(k)) && IsA(i, k.parent)
    ensures forall a :: a in Ancestors(k.parent) ==> IsA(i, a)
    ensures Rooted(k.parent) ==> IsA(i, GenericError)
    ensures forall c :: IsA(i, c) <==> c == Made(k) || c in k.lineage
  {
  }
}
