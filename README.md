# perror in Dafny

A model of the two components of the `perror` package:

- **the error-kind factory** (`lib/index.js`): `perror(code, name, message, superCtor)` normalises
  its flexible argument list and returns an error constructor `E`. `E` keeps a mutable
  `extraFields` map that the chaining methods `E.httpCode` and `E.extra` update. `new E(message, data)`
  assembles an instance field by field. When `message` is itself an error, the new instance takes
  over that error's fields and prefixes its message.
- **the lookup index** (`lib/Lookup.js`): `new Lookup(namespace)` indexes every function of a
  namespace by its prototype's `code` and `name`, a later entry replacing an earlier one.
  `lookup.code(...)` and `lookup.name(...)` construct an instance of the kind they find, or of
  the built-in `Error` when nothing matches.

Files:

- `wrappers.dfy`: `Option`.
- `perror.dfy` (module `PError`): values, instances and the is-a relation. The factory `Declare`.
  The class `Kind` (the constructor `E` and its closure: name, message prefix, code, parent,
  lineage, mutable `extraFields`) with `HttpCode`, `Extra` and `New`. The specification
  functions `Normalised` and `Fields`.
- `lookup.dfy` (module `LookupIndex`): namespace entries and the index function `IndexBy`.
  The class `Lookup` (fields `codes` and `names`) with its building constructor and `Code`, `Name`
  and `Construct`. Lemmas on the index, and on namespaces made of factory kinds.
- `scenarios.dfy` (module `Scenarios`): client methods that state the checks of
  `tests/perror-test.js` and `tests/lookup-test.js`, and a wrapping example, against the contracts.

Modelling choices:

- The factory's positional arguments are the datatype `Arg`, which encodes how `isNaN` and unary `+`
  see them:
  - `Number(n)` and `NumericText(text, n)` are numeric; `NumericText` carries the number `+` makes of its text.
  - `Text(s)` is a non-numeric string.
  - `Callable(c)` is a constructor: Error, a built-in error type that inherits directly from Error, or a kind made by the factory.
  - `Missing` is an omitted argument.
- Truthiness and string conversion are written out on `Arg`.
- The constructor's first argument is `Message`: `Plain(text)`, `Wrap(instance)` or `Undef`.
- An instance is its is-a identity (the constructor it was built from) plus its own fields, a
  `map<string, Value>`. `i.name` and `i.message` fall back to the prototype (`Name`, `MessageOf`).
- Is-a is explicit: each kind keeps its `lineage`, its parent followed by the parent's ancestors.
  This takes the place of the prototype chain.
- A parent that is truthy but not a constructor is rejected by the host's `util.inherits`.
  `Declare` returns `None` for it.
- Namespace entries state what `lib/Lookup.js:14-17` reads: whether the entry is a function, and
  its prototype's `name` and `code`. A kind made by the factory has no prototype `code`.
- The namespace is a sequence of `(key, entry)` pairs in iteration order. This is what lets
  last-write-wins be stated.
- A code query is `Numeric(n)` or `NonNumeric(text)`. `NonNumeric` is a key that is the text of no integer, such as `'LOL'`.

The model follows the code of `lib/`. tests/lookup-test.js:17 expects `lookup.code(403)` to find
`AuthError`. The code indexes a code only when the prototype has one, and the factory never puts
one there (see Findings).

## Model

| member | source | states |
|---|---|---|
| `PError.Normalised` | lib/index.js:21-30 | A non-numeric first argument becomes the name and clears the code; otherwise the code and name stay. A constructor in the prefix slot becomes the parent and empties the prefix slot; otherwise the prefix and parent slots are the shifted (or original) ones. The code kept is the number of a numeric first argument and nothing otherwise. |
| `PError.Declare` | lib/index.js:19-76 | Fails exactly when the normalised parent slot is truthy but not a constructor. Otherwise it returns a fresh kind with the normalised name, the prefix `text + ": "` of a truthy prefix argument (empty otherwise), the normalised parent (Error when absent) and lineage `[parent] + ancestors(parent)`. Its extra fields hold exactly `code` as a number when a code was given. |
| `PError.Kind.constructor` | lib/index.js:33-36 | The new kind's extra fields are `{code}` when there is a code and empty otherwise. Its lineage is the parent followed by the parent's ancestors. |
| `PError.Kind.HttpCode` | lib/index.js:80-83 | Returns the same kind. Only the `httpCode` extra field changes, to the given value. |
| `PError.Kind.Extra` | lib/index.js:85-90 | Returns the same kind. The extra fields become the old ones overwritten by every key of `obj`, `code` included. Keys not in `obj` keep their value. |
| `PError.CopyFields` | lib/index.js:59-61 | The `for…in` copy: the result is the target overwritten by every field of the source. Other target fields are unchanged. |
| `PError.Kind.New` | lib/index.js:42-73 | The instance's is-a identity is this kind. Its own fields are exactly `Fields` of the kind's name, prefix and current extra fields. |
| `PError.Fields` | lib/index.js:52-73 | The own keys are `name` and `message`, plus `data` when defined, the extra keys, and the wrapped error's keys. `name` is the declared name and `data` the given data unless replaced. Every extra field appears unchanged on a plain instance. A plain message is `prefix + text`. A wrapped error's fields all override, and the message is `prefix + inner.message`. |
| `PError.PlainMessage` | lib/index.js:39-54 | A plain message is `prefix + ": " + m` for a truthy prefix argument and `m` otherwise. An absent `m` reads "undefined". |
| `PError.DeclaredInstance` | lib/index.js:35-56 | An instance of a freshly declared kind has the declared name as an own field. It has an own `code` exactly when the first argument was numeric, and that code is the number. It has `data` exactly when data was given. |
| `PError.WrapKeepsOuterExtras` | lib/index.js:59-71 | Wrapping keeps each outer extra field that the wrapped error does not carry. |
| `PError.HttpCodeIdempotent` | lib/index.js:80-83 | Setting `httpCode` twice to the same value builds the same instances as setting it once. |
| `Scenarios.HttpCodeTwice` | lib/index.js:80-83 | Calling `httpCode(v)` a second time on a kind changes none of the instances it builds. |
| `PError.InstanceIsA` | lib/index.js:75 | An instance is-a its kind, the declared parent and every ancestor of the parent. It is-a Error whenever the parent descends from Error. It is-a nothing else: exactly its kind and the kind's lineage. |
| `PError.Construction` | lib/Lookup.js:28-33 | The instance built from a constructor has that constructor as its identity. For a factory kind its fields are `Fields`. For a built-in, its name is the built-in's and it has no `code`. |
| `LookupIndex.Lookup.constructor` | lib/Lookup.js:8-19 | The loop leaves `codes` and `names` equal to the index function over the namespace, for prototype codes and prototype names respectively. |
| `LookupIndex.IndexedKeys` | lib/Lookup.js:13-17 | A key is in an index exactly when some function entry has it. What is stored under it is the constructor of such an entry. |
| `LookupIndex.LastRegistrationWins` | lib/Lookup.js:13-17 | The function entry with a key that no later entry shares is the one stored under that key. |
| `LookupIndex.OnlyFunctionsIndexed` | lib/Lookup.js:13-14 | Dropping every non-function entry leaves the index unchanged. |
| `LookupIndex.EmptyNamespace` | lib/Lookup.js:9-18 | An empty namespace gives two empty maps. |
| `LookupIndex.Lookup.Construct` | lib/Lookup.js:28-33 | Builds the instance `new c(m, data)` describes. |
| `LookupIndex.Lookup.Code` | lib/Lookup.js:43-45 | The result equals direct construction of the kind stored under the code, with the same message and data. When no kind is stored, the result is a plain Error: name "Error", no `code`. The index is not modified. |
| `LookupIndex.Lookup.Name` | lib/Lookup.js:55-57 | The same, by name. |
| `LookupIndex.CodeIndexMissesFactoryKinds` | lib/Lookup.js:15-16 | In a namespace of factory kinds, the code index is empty, so every code lookup falls back to Error. |
| `LookupIndex.FactoryKindFoundByName` | lib/Lookup.js:17 | A factory kind whose name no later kind shares is found by that name. |
| `LookupIndex.FactoryKindFoundByCode` | lib/Lookup.js:15-16 | With the declared code on the prototype, a kind whose code no later kind shares is found by that code. |
| `LookupIndex.CodeAndNameLookupsAgree` | lib/Lookup.js:43-57 | With codes on the prototypes, lookup by a kind's code and lookup by its name build the same instance, equal to direct construction. |

## Findings

| source | as written | input that shows it | evidently intended | confidence | as-written member | corrected member |
|---|---|---|---|---|---|---|
| lib/Lookup.js:15-16 | The index takes a code only from `prototype.code`. The factory (lib/index.js:76) sets only `prototype.name` and keeps `code` in the extra fields copied onto instances. So no factory kind is ever indexed by code. | The namespace of tests/lookup-test.js:9-13. `lookup.code(403)` builds a plain Error, but tests/lookup-test.js:17 expects `AuthError`. | The declared code is on the prototype, so code lookup finds the kind, as name lookup does. | not executed | `LookupIndex.CodeIndexMissesFactoryKinds` | `LookupIndex.FactoryKindFoundByCode` |

`Scenarios.LookupAsWritten` shows the as-written outcome on the test's namespace.
`Scenarios.LookupWithCodes` shows the corrected registration (`RegisteredWithCode`) on the same namespace.

## Left out

- PError.Kind.Extra and PError.Kind.New: the objects copied from (the argument of `extra`, the extra fields, a wrapped error) are ordinary objects whose `hasOwnProperty` is the inherited one. An own non-function `hasOwnProperty` field, or an object without a prototype, makes the copy loops throw a TypeError (lib/index.js:60, 67, 87). That failure is not modelled: `Extra` and `New` always return.
- Stack traces (`Error.captureStackTrace`, `new Error().stack`, copying `message.stack` when wrapping). They depend on the host call stack.
- `util.inherits` and `Error.call(this, message)`. Prototype wiring is modelled as the explicit `lineage`. `Error.call` has no effect on the instance.
- The `Object.create`/`apply` call in `construct`. It is modelled as building an instance of the resolved constructor.
- JavaScript coercions beyond what `Arg` encodes:
  - Non-integer numbers, `NaN`, booleans, `null` and objects as factory arguments are not modelled.
  - `Arg` does not enforce its encoding. A `NumericText` must carry the number JavaScript reads from its text. A `Text` must be a string `isNaN` finds non-numeric.
- Functions without a `prototype` (bound and arrow functions), and constructors written by hand. Such a function in a namespace makes `'code' in errors[i].prototype` throw (lib/Lookup.js:15), and as a parent it makes `util.inherits` throw (lib/index.js:75). The model's `Callable` and `Function` entries always have a prototype, so neither `Lookup.constructor` nor `Declare` fails for them. A hand-written parent cannot be given either. This covers a subclass of a built-in error type, which has a deeper is-a chain, and a function not derived from Error, whose instances are not `instanceof Error`.
- The string conversion of a function (its source text) is not modelled. It is rendered as "function".
- Property order: own fields are a map. Also, the built-in Error's `message` is non-enumerable; the model treats it as an ordinary own field. This changes no field the model reads, because wrapping overwrites `message`.
- Inherited keys of the plain objects `_codes` and `_names`, such as `toString`, `constructor` and `__proto__`, are not modelled. A lookup of such a name is treated as unregistered.
- The namespace's enumeration (own and inherited enumerable keys) is given as the entry sequence.
- Arguments after `data` are ignored, as `E` ignores them.
- The second argument of a built-in Error (an options object whose `cause` current engines turn into an own property) is not modelled.
- `Error.prototype.toString` is used only to give the text of an error passed as a plain message. `e + ''` itself is not modelled.
- `lib/index.js:19` exports only the factory; attaching `Lookup` to the package is not part of this model.
