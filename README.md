# groqd query builder, modelled in Dafny

This project models the fluent GROQ query builder of groqd (`src/builder.ts`).
A builder node holds two values side by side. The first is the GROQ query text
built so far, which only ever grows. The second is the schema of the value that
text returns: unknown, a caller-supplied field schema, or a "safe array" of an
element schema.

The source has five classes. `BaseQuery` holds the pair and hands out a
snapshot of it. `EntityQuery` stands for a single value. `UnknownQuery` is the
root. `ArrayQuery` stands for an array. `UnknownArrayQuery` is an array of
unknown values. Here they are one class, `Builder.Query`, with a constant
`kind` tag that records the object's runtime class. A call the runtime class
does not have (say `order` on an entity) is a precondition on `kind`. The
schema each class is declared to carry is the invariant `Valid()`.

Chains are typed by what each call is declared to return, and that is what
`TypeState.Step` follows. `filter` and `deref` return `this`, so the caller's
class is kept. `order` and the two-argument `slice` are declared to return
`ArrayQuery`, so after them an `UnknownArrayQuery` is seen as a plain
`ArrayQuery` and `deref` no longer type-checks, even though the object's
runtime class is unchanged (`TypeState.DerefLostAfterOrderOrRange`).

Files and modules:

- `wrappers.dfy` (`Wrappers`): `Option`, used for the optional second argument of `slice` and for parse results.
- `decimal.dfy` (`Decimal`): how a template literal renders a safe integer (magnitude below 2^53), with a parser and a round-trip proof.
- `schemas.dfy` (`Schemas`): the abstract schema. Zod schemas are opaque ids; `SafeArray(e)` stands for `safeZodArray(e)`.
- `groq.dfy` (`Groq`): the text fragments each call appends (`.name`, `[v]`, `->`, `|order(...)`, `[i]`, `[min..max]`). Round-trip lemmas show that the slice text and the text of a single ordering read back to their arguments. The joined `|order(...)` text does not determine the list of orderings, since an expression may itself contain `", "`.
- `typestate.dfy` (`TypeState`): the class hierarchy as a state machine over immutable values. `Step` gives one call; `Run` gives a chain of calls. The lemmas cover append-only text, schema/class consistency, and the one-way door out of the Unknown classes.
- `builder.dfy` (`Builder`): the imperative class. Each method states the receiver's new text and schema, and whether it returns the receiver or a fresh node. Each method also states that it agrees with `TypeState.Step`.
- `scenarios.dfy` (`Scenarios`): client chains from a fresh root, each with the exact text and schema it ends with.

Two behaviours of the code are worth knowing. `UnknownQuery.filter` and the
one-argument `slice` both append to the receiver's own text and then return a
new node that carries the same text. So the receiver and the result agree up to
that call and grow apart afterwards (`Scenarios.FilterAliasing`). In `slice`,
only whether `max` is passed decides the overload. `slice(2, 0)` takes the range
path, and the text `[2..0]` still reads back as an upper bound of 0.

## Model

| member | source | states |
|---|---|---|
| `Builder.Query.constructor` | src/builder.ts:13-16 | The new node holds exactly the given payload; the schema fits the class being built. |
| `Builder.Query.Value` | src/builder.ts:18-20 | Returns exactly the current schema and text, as an immutable value. Two calls with no call in between return equal snapshots. |
| `Builder.Query.GrabOne` | src/builder.ts:38-46 | Returns a fresh entity node with text `old + "." + name` and the field schema. The receiver is not modified. Agrees with `Step`. |
| `Builder.Query.FilterToArray` | src/builder.ts:57-64 | Appends `[v]` to the receiver's own text; `v` defaults to `""`, giving `[]`. The receiver's schema stays `Unknown`. Returns a fresh unknown-array node with the same text and schema `SafeArray(Unknown)`. |
| `Builder.Query.Deref` | src/builder.ts:66-69 | Appends exactly `->` and returns the receiver with its schema unchanged. This covers the identical `UnknownArrayQuery.deref` at src/builder.ts:131-134. Only the two Unknown classes offer it. |
| `Builder.Query.Filter` | src/builder.ts:82-85 | On an array node: appends `[v]` (default `[]`) and returns the receiver with its schema unchanged. |
| `Builder.Query.GrabOneEach` | src/builder.ts:94-102 | Returns a fresh array node with text `old + "." + name` and schema `SafeArray(fieldSchema)`. The receiver is not modified. |
| `Builder.Query.Order` | src/builder.ts:104-107 | Appends `|order(` + the orderings joined by `", "` (`Groq.Join`, modelling `Array.prototype.join`) + `)` and returns the receiver with its schema unchanged; the returned reference is typed `ArrayQuery`. |
| `Builder.Query.Slice` | src/builder.ts:109-123 | Appends `[min]` or `[min..max]` to the receiver. Without `max`, returns a fresh entity node whose schema is the receiver's array element. With `max` (0 included), returns the receiver with its schema unchanged, typed `ArrayQuery`. |
| `TypeState.Step` | src/builder.ts:38-134 | For each chainable call, the node the call returns, with the class it is declared to return; None when the class lacks the call. A call that succeeds is one the class offers. |
| `TypeState.StepAppends` | src/builder.ts:43-132 | Every call's resulting text is the previous text followed by that call's fixed fragment. |
| `TypeState.StepOffers` | src/builder.ts:26-134 | On a well-formed node, a call is accepted if and only if the node's class declares or inherits it. The node the call returns is again well-formed. |
| `TypeState.StepKeepsSchema` | src/builder.ts:66-122 | filter on an array, deref, order and the range slice leave the schema as it was. filter and deref keep the class; order and the range slice give `ArrayQuery`. |
| `TypeState.DerefLostAfterOrderOrRange` | src/builder.ts:104-134 | From the root, `filter().filter().deref()` type-checks, but `filter().order(...).deref()` and `filter().slice(a, b).deref()` do not. |
| `TypeState.SliceIndexUnwraps` | src/builder.ts:110-120 | An index slice on `SafeArray(s)` yields an entity node of schema `s`, exactly one level unwrapped. |
| `TypeState.SliceRangeKeepsArray` | src/builder.ts:111-122 | A range slice gives an `ArrayQuery` of the same schema, whatever the bounds. |
| `TypeState.RunAppendsFragments` | src/builder.ts:38-134 | A chain's text is its starting text followed by every call's fragment in call order. |
| `TypeState.AppendOnly` | src/builder.ts:38-134 | No chain shortens or rewrites the text it starts from: the old text is a prefix of the new. |
| `TypeState.RunPreservesWellFormed` | src/builder.ts:52-134 | Every node a chain reaches carries a schema its class is declared to carry (arrays carry safe arrays, Unknown classes carry unknown). |
| `TypeState.NoWayBackToUnknown` | src/builder.ts:38-122 | From an `EntityQuery` or `ArrayQuery` node, no chain reaches an Unknown class again. |
| `TypeState.RunConcat` | src/builder.ts:38-134 | Running one chain and then another equals running their concatenation. |
| `TypeState.RootChain` | src/builder.ts:52-134 | From the root (empty text, unknown schema), a chain's text is exactly the concatenation of its fragments, and the node it reaches is well-formed. |
| `Groq.SliceRoundTrip` | src/builder.ts:113 | The slice text gives back both the overload and its numbers. An upper bound of 0 reads back as present. |
| `Groq.OrderingRoundTrip` | src/builder.ts:104 | An ordering's text `expr asc` / `expr desc` reads back to the same expression and direction. |
| `Groq.OrderFragmentSingle` | src/builder.ts:105 | Ordering by one key renders as `|order(key dir)`, with no separator. |
| `Groq.OrderFragmentAmbiguous` | src/builder.ts:105 | The joined `|order(...)` text cannot be read back: one ordering `a asc, b asc` renders exactly like the two orderings `a asc` and `b asc`. |
| `Groq.JoinSnoc` | src/builder.ts:105 | Joining one more ordering appends `", "` and that ordering. |
| `Groq.JoinLength` | src/builder.ts:105 | The joined text is as long as the elements plus one separator per neighbouring pair. |
| `Decimal.NatToText` | src/builder.ts:113 | A natural number renders as a non-empty string of digits, with no leading zero. |
| `Decimal.IntToText` | src/builder.ts:113 | A safe integer renders as digits, with a leading `-` exactly when it is negative. |
| `Decimal.IntRoundTrip` | src/builder.ts:113 | Parsing an integer's rendering gives back the integer. |
| `Decimal.IntToTextInjective` | src/builder.ts:113 | Distinct integers never render to the same text. |
| `Scenarios.FirstName` | src/builder.ts:58-120 | `filter().grabOne("name", S).slice(0)` from the root gives text `[].name[0]` and an entity node of schema `S`. |
| `Scenarios.PricedItems` | src/builder.ts:58-107 | `filter().grabOne("items", S).slice(1, 3).order("price desc")` gives `[].items[1..3]|order(price desc)` and an array node of `SafeArray(S)`. |
| `Scenarios.DerefTitle` | src/builder.ts:38-69 | `deref().grabOne("title", S)` gives `->.title` and an entity node of schema `S`. |
| `Scenarios.SliceUpToZero` | src/builder.ts:110-122 | `filter().slice(2, 0)` returns the same object, whose runtime class is still `UnknownArrayQuery`, with text `[][2..0]`. |
| `Scenarios.FilterAliasing` | src/builder.ts:18-69 | After `filter` the root carries `[]` as well. The two nodes then grow apart (`[]->` on the root, `[][draft]` on the array). A snapshot taken before still reads the empty text. |

## Left out

- `EntityQuery.grab` and `ArrayQuery.grab` (src/builder.ts:31-36, 87-92) only pass the current text and schema to `grab` in `./grab`. The projection and validation engine is not part of this model. What they pass is exactly `Value()`.
- Zod's runtime validation, and the leniency of `safeZodArray` toward input that is not an array, belong to a foreign library. Schemas are abstract values here, and `innerType().element` is the `element` of `SafeArray`.
- The type-level constraint that each ordering ends in ` asc` or ` desc` is enforced by the TypeScript compiler, not at run time. Here it is captured by the `Ordering` datatype's two directions, so no other direction can be written.
- `Decimal.IntToText`: slice arguments are integers, and the rendering matches JavaScript only for safe integers. Integers above 2^53 in magnitude, which JavaScript renders as shortest round-trip digits padded with zeros (`2**64` gives `18446744073709552000`), are rendered exactly here. JavaScript's rendering of fractional numbers, `NaN`, `Infinity` and of magnitudes of 10^21 or more (exponent form) is not modelled either.
- Whether `[min..max]` includes `max` is defined by the GROQ language, not by this code, and is not modelled.
- TypeScript's static typing is modelled in two places. On `Builder.Query`, `kind` is the object's runtime class, and a call that class lacks is a precondition violation rather than a compile error. The narrower declared return types of `order` and the range `slice` (src/builder.ts:104, 111) are not tracked on the object; they are tracked in `TypeState.Step`.
- The five source classes are one class with a kind tag. Subclassing and method overriding are not modelled as such.
- The React demo application, local storage and cross-window messaging of the website and the playground editor are presentation and browser I/O.
