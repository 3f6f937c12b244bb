# ObjectAsserter, modelled in Dafny

`Webforge\Code\Test\ObjectAsserter` is a fluent asserter for decoded JSON
documents in PHPUnit tests. A test starts at the root object and descends
with `property('name')` and `key(index)`. It checks nodes with `is`,
`isArray` and `isObject`, and climbs back with `end()`. Each asserter keeps
four things:

- the value it inspects;
- a location path: a list of tokens that starts with `$root` and grows by
  `.name` or `[index]`;
- the asserter that created it, which is its `context`;
- the test case, which aborts the test on the first failed assertion.

The model is functional. Values and asserters are immutable datatypes. Every
call returns a `Result`: `Ok` with the asserter the PHP method returns, or
`Fail` with the failure that aborts the test. A chain of calls is a sequence
of steps run left to right, and it stops at the first `Fail`.

| module | file | what it holds |
|---|---|---|
| `Wrappers` | wrappers.dfy | `Option` and the failure-compatible `Result` |
| `Decimal` | decimal.dfy | PHP's integer-to-decimal conversion and canonical numeric strings |
| `Values` | values.dfy | decoded PHP values, array keys, key canonicalisation, truthiness |
| `Paths` | paths.dfy | path tokens, `addPath`, rendering by concatenation |
| `Constraints` | constraints.dfy | the `$constraint` argument, `isset` versus truthiness, normalisation to a matcher |
| `ObjectAsserter` | object_asserter.dfy | the asserter: root and child construction, `property`, `key`, `is`, `isArray`, `isObject`, `end` |
| `Chains` | chains.dfy | fluent chains, well-formed nodes, `end()` ancestry and path-prefix lemmas |
| `Scenarios` | scenarios.dfy | the test suite's chains on its sample document |

Modelling decisions:

- The root's context is itself in PHP. Here it is `None`, and `End` of a
  node without a context returns that node.
- "Returns the same asserter" is equality of the node value. PHP object
  identity is not modelled.
- A failed PHPUnit assertion is `AssertionFailed(message)`. The message is the
  one the asserter passes to PHPUnit.
- `assertThat` only accepts PHPUnit constraint objects. A plain non-string
  value reaches it unconverted, and PHP rejects it before any comparison.
  This is `TypeError`, which also aborts the test.
- A PHP array is a map from `ArrayKey` to `Value`. A lookup goes through
  `Canon`. `Canon` turns a string key that is the canonical decimal form of a
  64-bit integer into that integer, as PHP does for `$a["5"]` and
  `array_key_exists("5", $a)`. The rendered path keeps the index as given.
- The tests and the code disagree in two places, and the model follows the
  code. First, `ObjectAsserterTest.php:52-54` expects an array root to pass,
  but the constructor requires an object (`ObjectAsserter.php:23`). Second,
  `ObjectAsserterTest.php:177-181` passes the integer `7` as a shorthand,
  but only strings become `equalTo` (`ObjectAsserter.php:55`).
  `Scenarios.RootShapes` and `Scenarios.ScalarShorthand` state the code's
  behaviour in both cases.
- The docblocks of `property` and `is` (`ObjectAsserter.php:35` and
  `ObjectAsserter.php:52`) say only that a string constraint is taken as
  `equalTo`, while test names such as
  `testPropertySecondArgumentCanBeScalarValue`
  (`ObjectAsserterTest.php:177-188`) expect any scalar to be. The model
  follows the code: only strings are converted. `property` and `key` also
  differ. `property` applies a constraint when it is set (`isset`), while
  `key` applies it only when it is truthy (`ObjectAsserter.php:44` and
  `ObjectAsserter.php:75`).

## Model

| member | source | states |
|---|---|---|
| Decimal.IntToString | lib/Webforge/Code/Test/ObjectAsserter.php:70-72 | the text printed for an integer index is a canonical decimal string, and parsing it gives back that integer |
| Decimal.ParseRoundTrip | lib/Webforge/Code/Test/ObjectAsserter.php:70-72 | every canonical decimal string is the printed form of the integer it denotes, so printing and parsing are inverse |
| Decimal.IntToStringInjective | lib/Webforge/Code/Test/ObjectAsserter.php:70-72 | distinct integer indexes print differently, so the `[index]` token and the missing-key message identify the index |
| Decimal.NatToStringRoundTrip | lib/Webforge/Code/Test/ObjectAsserter.php:70-72 | reading back the printed digits of a natural number gives that number |
| Values.Canon | lib/Webforge/Code/Test/ObjectAsserter.php:70-73 | the slot PHP looks up: an integer key is kept, and a string key becomes an integer exactly when it is a canonical in-range decimal |
| Values.CanonOfPrintedInt | lib/Webforge/Code/Test/ObjectAsserter.php:70-73 | `key("5")` and `key(5)` look up the same slot |
| Values.CanonIdempotent | lib/Webforge/Code/Test/ObjectAsserter.php:70-73 | canonicalising a looked-up key again changes nothing |
| Values.KeyText | lib/Webforge/Code/Test/ObjectAsserter.php:69-72 | an index prints as given when it is a string and in canonical decimal when it is an integer, and the printed text, used as a string key, names the same slot as the index |
| Values.KeyTextNamesSlot | lib/Webforge/Code/Test/ObjectAsserter.php:69-73 | two indexes look up the same slot exactly when they print the same, so the `[index]` token and the missing-key message identify the slot |
| Values.Truthy | lib/Webforge/Code/Test/ObjectAsserter.php:75 | a value converts to true exactly when it is none of NULL, "", "0", 0, false and the empty array |
| Paths.Render | lib/Webforge/Code/Test/ObjectAsserter.php:113-115 | the empty path renders as nothing and a one-token path as its token; with `RenderConcat`, rendering is separator-free joining |
| Paths.AddPath | lib/Webforge/Code/Test/ObjectAsserter.php:102-104 | the new path is the old one with exactly one token appended, and it renders as the old rendering followed by the token |
| Paths.RenderSingle | lib/Webforge/Code/Test/ObjectAsserter.php:113-115 | a one-token path such as the root's renders as that token |
| Paths.RenderConcat | lib/Webforge/Code/Test/ObjectAsserter.php:113-115 | rendering joins the tokens with no separator: the rendering of two joined paths is the joined renderings |
| Paths.PrefixRendersAsPrefix | lib/Webforge/Code/Test/ObjectAsserter.php:102-115 | the rendering of a path prefix is a prefix of the path's rendering |
| Paths.TokenAtOffset | lib/Webforge/Code/Test/ObjectAsserter.php:113-115 | each token appears in the rendering at the offset given by the tokens before it |
| Constraints.IsSet | lib/Webforge/Code/Test/ObjectAsserter.php:44 | `property` applies a constraint exactly when it is not the omitted NULL default |
| Constraints.IsTruthy | lib/Webforge/Code/Test/ObjectAsserter.php:75 | `key` applies a constraint exactly when it is a constraint object or a plain value that is not falsy |
| Constraints.Resolve | lib/Webforge/Code/Test/ObjectAsserter.php:54-57 | a string becomes a matcher that accepts exactly the equal value; a constraint object accepts what it accepted before; any other value gives no matcher |
| Constraints.TruthyImpliesSet | lib/Webforge/Code/Test/ObjectAsserter.php:75-77 | every constraint `key` applies (truthy) is one `property` applies (set); they differ exactly on "", "0", 0, false and the empty array |
| ObjectAsserter.PathOf | lib/Webforge/Code/Test/ObjectAsserter.php:113-115 | a node's rendered location starts with its first path token, and a root's is exactly `$root` |
| ObjectAsserter.End | lib/Webforge/Code/Test/ObjectAsserter.php:109-111 | a child returns its creator and a root returns itself, and only a root is its own `end()` (see Chains.EndReachesTop and Chains.DescendThenEnd) |
| ObjectAsserter.Root | lib/Webforge/Code/Test/ObjectAsserter.php:19-23 | the root is accepted exactly when the value is an object; it holds that value, renders as `$root`, and `end()` on it returns it, twice over; otherwise the failure is "The given root object should be an object" |
| ObjectAsserter.Child | lib/Webforge/Code/Test/ObjectAsserter.php:24-27 | a child holds the given value and exactly the given path, and its context and `end()` are the node that created it |
| ObjectAsserter.IsObject | lib/Webforge/Code/Test/ObjectAsserter.php:97-100 | passes exactly on objects and returns the node itself; otherwise fails with "<path> is not an object" |
| ObjectAsserter.IsArray | lib/Webforge/Code/Test/ObjectAsserter.php:87-90 | passes exactly on arrays and returns the node itself; otherwise fails with "<path> is not an array" |
| ObjectAsserter.Is | lib/Webforge/Code/Test/ObjectAsserter.php:54-61 | returns the node itself; with a constraint object it passes exactly when the constraint accepts the value; with a string it passes exactly when the value equals it; any other plain value is a type error; a mismatch fails with "<path> does not match" |
| ObjectAsserter.Property | lib/Webforge/Code/Test/ObjectAsserter.php:37-49 | a non-object fails with "<path> is not an object" whatever the name and constraint; a missing field fails with "property: <path>.<name> does not exist"; a success holds the field, has the parent path plus the token ".<name>", renders as "<path>.<name>" and ends at the parent; with the field present it passes exactly when the constraint is unset or satisfied, and otherwise fails with a type error exactly when the constraint is a plain non-string value, and with "<path>.<name> does not match" otherwise |
| ObjectAsserter.Key | lib/Webforge/Code/Test/ObjectAsserter.php:68-80 | a non-array fails with "<path> is not an array"; an absent index fails with "<path> does not have key <index>" using the parent's path; a success holds the entry, has the parent path plus the token "[<index>]", renders as "<path>[<index>]" and ends at the parent; with the entry present it passes exactly when the constraint is falsy or satisfied, and otherwise fails with a type error exactly when the constraint is a plain non-string value, and with "<path>[<index>] does not match" otherwise |
| ObjectAsserter.StringShorthandIsEqualTo | lib/Webforge/Code/Test/ObjectAsserter.php:54-59 | `is('x')` and `is(equalTo('x'))` give the same outcome on every node |
| ObjectAsserter.OtherShorthandsRejected | lib/Webforge/Code/Test/ObjectAsserter.php:54-59 | a plain non-string value passed to `is` is a type error on every node, while `equalTo` of it passes exactly on equal values |
| Chains.RunAppend | lib/Webforge/Code/Test/ObjectAsserter.php:37-111 | running two chains in sequence is running the second on the node the first returned, unless the first failed |
| Chains.FirstFailure | lib/Webforge/Code/Test/ObjectAsserter.php:37-111 | a failing chain reports the failure of its first failing call, made on the node the earlier calls returned |
| Chains.ChecksStayPut | lib/Webforge/Code/Test/ObjectAsserter.php:54-100 | any run of `is`, `isArray` and `isObject` that passes returns the node it started on |
| Chains.RootWellFormed | lib/Webforge/Code/Test/ObjectAsserter.php:19-21 | a root has path exactly `$root`, depth zero, and is its own top |
| Chains.ApplyPreservesWellFormed | lib/Webforge/Code/Test/ObjectAsserter.php:37-111 | every call keeps the path invariant (each path is its creator's plus one token) and keeps the root a node descends from |
| Chains.RunPreservesWellFormed | lib/Webforge/Code/Test/ObjectAsserter.php:37-111 | whole chains keep the path invariant and never leave their root |
| Chains.AncestorPathIsPrefix | lib/Webforge/Code/Test/ObjectAsserter.php:102-104 | the path only grows by appending: the node k levels up holds the first |path|-k tokens, the path is one token longer than the depth, and it starts with `$root` |
| Chains.EndReachesTop | lib/Webforge/Code/Test/ObjectAsserter.php:106-111 | `end()` repeated depth-many times reaches the root, and any further `end()` calls stay there |
| Chains.ChainFromRoot | lib/Webforge/Code/Test/ObjectAsserter.php:19-27 | any node a chain reaches from a root returns to exactly that root after depth-many `end()` calls, and its rendered path starts with `$root` |
| Chains.DescentsUndoneByEnd | lib/Webforge/Code/Test/ObjectAsserter.php:106-111 | after a chain of `property`, `key` and checks, one `end()` per descent leads back to the starting node |
| Chains.DescendThenEnd | lib/Webforge/Code/Test/ObjectAsserter.php:106-111 | a successful `property` or `key` followed by `end()` returns the node it was called on |
| Scenarios.RootShapes | tests/Webforge/Code/Test/ObjectAsserterTest.php:42-54 | a string root fails with the root message, an empty object passes, and an empty array fails, unlike what the test expects |
| Scenarios.RepositoriesAreNotAnObject | tests/Webforge/Code/Test/ObjectAsserterTest.php:91-108 | `isObject()` and `property(0)` on the repositories list fail with "$root.project.repositories is not an object" |
| Scenarios.MissingKey | tests/Webforge/Code/Test/ObjectAsserterTest.php:110-121 | `key(2)` on the two repositories fails with "$root.project.repositories does not have key 2" |
| Scenarios.MissingPropertyBelowKey | tests/Webforge/Code/Test/ObjectAsserterTest.php:123-136 | a missing property below `key(0)` fails with "property: $root.project.repositories[0].nonexisting does not exist" |
| Scenarios.LeaveNestedAssertions | tests/Webforge/Code/Test/ObjectAsserterTest.php:139-149 | the whole chain passes: three `end()` calls climb from a repository's type back to the project, and the chain's result is exactly the author's label node |
| Scenarios.PropertyConstraint | tests/Webforge/Code/Test/ObjectAsserterTest.php:151-162 | `equalTo(7)` on the credits passes and `equalTo(5)` fails with "$root.project.author.credits does not match" |
| Scenarios.KeyConstraint | tests/Webforge/Code/Test/ObjectAsserterTest.php:164-175 | `logicalNot(isEmpty())` on the first repository passes and `isEmpty()` fails with "$root.project.repositories[0] does not match" |
| Scenarios.DocuExampleShorthands | tests/Webforge/Code/Test/ObjectAsserterTest.php:293-298 | the string shorthands `'Philipp Scheit'`, `'Philipp'`, `'Scheit'` and `'www.repo.com'` pass on the fields holding those strings |
| Scenarios.ScalarShorthand | tests/Webforge/Code/Test/ObjectAsserterTest.php:177-194 | the string shorthand `'WrongFirstName'` fails with "$root.project.author.firstName does not match"; the integer shorthands `7` and `0` are type errors, unlike what the tests expect |

## Left out

- `contains`, `length`, `get` and `tap` are called by the test suite, but the
  class does not define them.
- `msg` is modelled only through the concrete messages it produces.
  `vsprintf` formatting in general is not modelled.
- PHPUnit appends its own description ("Failed asserting that ...") to a
  failure message. Only the asserter's part of the message is modelled.
- Constraints.Accepts: `equalTo` is structural equality of values. PHPUnit's
  loose comparison is not modelled: numeric strings against integers,
  numeric strings against numeric strings (`'1e1' == '10'`), float
  deltas, and objects compared by their properties.
- Other PHPUnit constraints (`isEmpty`, `greaterThan`, `logicalNot`, ...) are
  opaque predicates in `Matcher.Satisfies`.
- Floats, resources and objects of classes other than `stdClass` are not in
  `Value`. Integers are limited to the 64-bit range.
- `assertObjectHasAttribute` rejects an attribute name that is not a string
  or not a valid identifier. That check is PHPUnit's and is not modelled:
  every string is a name, and `property(0)` in the test suite becomes
  `property("0")`.
- `Arr` maps are not restricted to canonical keys. A map may hold
  `StrKey("5")`, which a PHP array cannot, and `key` never finds such an entry.
  Arrays built from PHP values only hold keys that `Canon` leaves unchanged.
- `assertArrayHasKey` rejects keys that are neither integers nor strings.
  `ArrayKey` has no such keys.
- The `$test` argument and the shared test case are not modelled. The
  `Result` each call returns stands in for them.
- The order of fields and entries is not modelled. No modelled operation
  observes it.
- lib/Webforge/Code/Test/Base.php and lib/Webforge/Code/Test/GuzzleTester.php
  are not part of this model. They contain PHPUnit set-up, HTTP client code,
  and file, process and translation helpers.
