/** The fluent structural asserter: each node holds the value it inspects,
    its location path, and the node whose `property` or `key` call created
    it. A failed check aborts the test; here it is a `Fail` that ends the
    chain. */
module ObjectAsserter {
  import opened Wrappers
  import opened Values
  import opened Paths
  import opened Constraints

  /** Why a chain stopped: a PHPUnit assertion failed with the asserter's
      message, or `assertThat` was handed something that is not a constraint
      object (PHP rejects the argument before any comparison). */
  datatype Failure = AssertionFailed(message: string) | TypeError

  /** One asserter. `context` is `None` for the root, which is its own
      context; otherwise it is the node that created this one. The test case
      all nodes share is the sink that turns a failure into an abort, and is
      represented by the `Result` every operation returns. */
  datatype Node = Node(value: Value, path: Path, context: Option<Node>)

  type Outcome = Result<Node, Failure>

  const RootNotObject: string := "The given root object should be an object"

  /** `path()`: the rendered location of a node, as used in failure messages;
      it starts with the node's first token, "$root" for a root. */
  function PathOf(n: Node): (r: string)
    ensures |n.path| > 0 ==> n.path[0] <= r
    ensures n.path == [RootToken] ==> r == RootToken
  {
    RenderSingle(RootToken);
    if |n.path| > 0 then
      PrefixRendersAsPrefix(n.path, 1);
      assert n.path[..1] == [n.path[0]];
      RenderSingle(n.path[0]);
      Render(n.path)
    else
      Render(n.path)
  }

  /** `end()`: back to the node that created this one; the root stays put,
      and no other node is its own `end()`. */
  function End(n: Node): (r: Node)
    ensures r == n <==> n.context.None?
    ensures n.context.Some? ==> n.context == Some(r)
  {
    match n.context
    case None => n
    case Some(p) => p
  }

  /** The constructor without a context: the root of a chain. Only an object
      is accepted as the root value. */
  function Root(v: Value): (r: Outcome)
    ensures r.Ok? <==> v.Obj?
    ensures r.Fail? ==> r.error == AssertionFailed(RootNotObject)
    ensures r.Ok? ==> r.value.value == v && PathOf(r.value) == RootToken
    ensures r.Ok? ==> End(r.value) == r.value && End(End(r.value)) == r.value
  {
    RenderSingle(RootToken);
    if v.Obj? then Ok(Node(v, [RootToken], None))
    else Fail(AssertionFailed(RootNotObject))
  }

  /** The constructor with a context: a child at `path` created by `parent`.
      No check runs here. */
  function Child(v: Value, parent: Node, path: Path): (c: Node)
    ensures End(c) == parent && c.value == v
    ensures c.path == path && c.context == Some(parent)
  {
    Node(v, path, Some(parent))
  }

  /** `isObject()`: the node itself when it holds an object. */
  function IsObject(n: Node): (r: Outcome)
    ensures r.Ok? <==> n.value.Obj?
    ensures r.Ok? ==> r.value == n
    ensures r.Fail? ==> r.error == AssertionFailed(PathOf(n) + " is not an object")
  {
    if n.value.Obj? then Ok(n)
    else Fail(AssertionFailed(PathOf(n) + " is not an object"))
  }

  /** `isArray()`: the node itself when it holds an array. */
  function IsArray(n: Node): (r: Outcome)
    ensures r.Ok? <==> n.value.Arr?
    ensures r.Ok? ==> r.value == n
    ensures r.Fail? ==> r.error == AssertionFailed(PathOf(n) + " is not an array")
  {
    if n.value.Arr? then Ok(n)
    else Fail(AssertionFailed(PathOf(n) + " is not an array"))
  }

  /** `is($constraint)`: the node itself when the value satisfies the
      constraint, a string standing for `equalTo` of that string. */
  function Is(n: Node, a: Arg): (r: Outcome)
    ensures r.Ok? ==> r.value == n
    ensures a.Constraint? ==> (r.Ok? <==> Accepts(a.m, n.value))
    ensures a.Plain? && a.v.Str? ==> (r.Ok? <==> n.value == a.v)
    ensures r == Fail(TypeError) <==> a.Plain? && !a.v.Str?
    ensures r.Fail? && r.error.AssertionFailed? ==> r.error.message == PathOf(n) + " does not match"
  {
    match Resolve(a)
    case None => Fail(TypeError)
    case Some(m) =>
      if Accepts(m, n.value) then Ok(n)
      else Fail(AssertionFailed(PathOf(n) + " does not match"))
  }

  /** `property($name, $constraint)`: shape check, then path, then existence
      check, then the child, then the constraint when it is set. */
  function Property(n: Node, name: string, a: Arg): (r: Outcome)
    // shape first: nothing else is looked at for a non-object
    ensures !n.value.Obj? ==> r == Fail(AssertionFailed(PathOf(n) + " is not an object"))
    // existence second; the message names the child's location
    ensures n.value.Obj? && name !in n.value.fields ==>
      r == Fail(AssertionFailed("property: " + PathOf(n) + "." + name + " does not exist"))
    // the child holds the field, one token deeper, created by `n`
    ensures r.Ok? ==>
      && n.value.Obj? && name in n.value.fields
      && r.value.value == n.value.fields[name]
      && |r.value.path| == |n.path| + 1 && r.value.path[..|n.path|] == n.path
      && r.value.path[|n.path|] == "." + name
      && PathOf(r.value) == PathOf(n) + "." + name
      && End(r.value) == n
    // the constraint last, and only when it is set
    ensures n.value.Obj? && name in n.value.fields ==>
      (r.Ok? <==> !IsSet(a) || Satisfied(a, n.value.fields[name]))
    ensures n.value.Obj? && name in n.value.fields && r.Fail? ==>
      r.error in {TypeError, AssertionFailed(PathOf(n) + "." + name + " does not match")}
    // a type error exactly for a plain value that is not a string
    ensures n.value.Obj? && name in n.value.fields && r.Fail? ==>
      (r.error == TypeError <==> a.Plain? && !a.v.Str?)
  {
    var _ :- IsObject(n);
    var propertyPath := AddPath(n.path, "." + name);
    assert Render(propertyPath) + " does not match" == PathOf(n) + "." + name + " does not match";
    assert "property: " + Render(propertyPath) + " does not exist"
        == "property: " + PathOf(n) + "." + name + " does not exist";
    if name !in n.value.fields then
      Fail(AssertionFailed("property: " + Render(propertyPath) + " does not exist"))
    else
      var child := Child(n.value.fields[name], n, propertyPath);
      if IsSet(a) then Is(child, a) else Ok(child)
  }

  /** `key($index, $constraint)`: shape check, then existence check, then the
      child, then the constraint when it is truthy. */
  function Key(n: Node, index: ArrayKey, a: Arg): (r: Outcome)
    // shape first
    ensures !n.value.Arr? ==> r == Fail(AssertionFailed(PathOf(n) + " is not an array"))
    // existence second; unlike `property`, the message names the parent
    ensures n.value.Arr? && Canon(index) !in n.value.entries ==>
      r == Fail(AssertionFailed(PathOf(n) + " does not have key " + KeyText(index)))
    // the child holds the entry, one token deeper, created by `n`
    ensures r.Ok? ==>
      && n.value.Arr? && Canon(index) in n.value.entries
      && r.value.value == n.value.entries[Canon(index)]
      && |r.value.path| == |n.path| + 1 && r.value.path[..|n.path|] == n.path
      && r.value.path[|n.path|] == "[" + KeyText(index) + "]"
      && PathOf(r.value) == PathOf(n) + "[" + KeyText(index) + "]"
      && End(r.value) == n
    // the constraint last, and only when it is truthy
    ensures n.value.Arr? && Canon(index) in n.value.entries ==>
      (r.Ok? <==> !IsTruthy(a) || Satisfied(a, n.value.entries[Canon(index)]))
    ensures n.value.Arr? && Canon(index) in n.value.entries && r.Fail? ==>
      r.error in {TypeError, AssertionFailed(PathOf(n) + "[" + KeyText(index) + "]" + " does not match")}
    // a type error exactly for a plain value that is not a string
    ensures n.value.Arr? && Canon(index) in n.value.entries && r.Fail? ==>
      (r.error == TypeError <==> a.Plain? && !a.v.Str?)
  {
    var _ :- IsArray(n);
    if Canon(index) !in n.value.entries then
      Fail(AssertionFailed(PathOf(n) + " does not have key " + KeyText(index)))
    else
      var keyPath := AddPath(n.path, "[" + KeyText(index) + "]");
      assert Render(keyPath) == PathOf(n) + "[" + KeyText(index) + "]";
      assert Render(keyPath) + " does not match"
          == PathOf(n) + "[" + KeyText(index) + "]" + " does not match";
      var child := Child(n.value.entries[Canon(index)], n, keyPath);
      if IsTruthy(a) then Is(child, a) else Ok(child)
  }

  /** `is('x')` is `is(equalTo('x'))`: the string shorthand and the explicit
      equality constraint pass and fail alike, with the same message. */
  lemma StringShorthandIsEqualTo(n: Node, s: string)
    ensures Is(n, Plain(Str(s))) == Is(n, Constraint(EqualTo(Str(s))))
  {
  }

  /** Only strings get the shorthand: any other plain value, NULL included,
      is rejected by `assertThat` whatever the node holds, while the equality
      constraint on the same value is an ordinary check. */
  lemma OtherShorthandsRejected(n: Node, v: Value)
    requires !v.Str?
    ensures Is(n, Plain(v)) == Fail(TypeError)
    ensures Is(n, Constraint(EqualTo(v))).Ok? <==> n.value == v
  {
  }
}
