/** The chains of the asserter's test suite, applied with `Run` to its sample
    document. Two of them show where the tests expect something the code does
    not do: an array root is rejected, and an integer shorthand constraint is
    not turned into `equalTo`. */
module Scenarios {
  import opened Wrappers
  import opened Values
  import opened Paths
  import opened Constraints
  import opened ObjectAsserter
  import opened Chains

  const Repo0: Value := Obj(map["url" := Str("http://github.com/pschei/repository.git"), "type" := Str("vcs")])
  const Repo1: Value := Obj(map["url" := Str("http://github.com/pscheit/repository2.git"), "type" := Str("git")])

  const Author: Value := Obj(map[
    "label" := Str("Philipp Scheit"),
    "firstName" := Str("Philipp"),
    "lastName" := Str("Scheit"),
    "credits" := Int(7)])

  const Project: Value := Obj(map[
    "repositories" := Arr(map[IntKey(0) := Repo0, IntKey(1) := Repo1]),
    "author" := Author,
    "url" := Str("www.repo.com"),
    "id" := Int(7)])

  /** The decoded sample document. */
  const Doc: Value := Obj(map["project" := Project])

  const DocRoot: Node := Node(Doc, ["$root"], None)

  /** PHPUnit's `isEmpty()`: PHP's `empty()`, the negation of truthiness. */
  const IsEmpty: Matcher := Satisfies(v => !Truthy(v))

  /** `logicalNot(isEmpty())`. */
  const NotEmpty: Matcher := Satisfies(v => Truthy(v))

  // The nodes the chains below pass through.
  const ProjectNode: Node := Node(Project, ["$root", ".project"], Some(DocRoot))
  const ReposNode: Node := Node(Project.fields["repositories"], ["$root", ".project", ".repositories"], Some(ProjectNode))
  const Repo0Node: Node := Node(Repo0, ["$root", ".project", ".repositories", "[0]"], Some(ReposNode))
  const AuthorNode: Node := Node(Author, ["$root", ".project", ".author"], Some(ProjectNode))

  // The literal texts the messages below are made of, one concatenation
  // step per lemma.

  lemma TextProject()
    ensures "$root" + ".project" == "$root.project"
  {
  }

  lemma TextRepos()
    ensures "$root.project" + ".repositories" == "$root.project.repositories"
  {
  }

  lemma TextRepo0()
    ensures "$root.project.repositories" + "[0]" == "$root.project.repositories[0]"
  {
  }

  lemma TextAuthor()
    ensures "$root.project" + ".author" == "$root.project.author"
  {
  }

  // The calls that reach them, one at a time.

  lemma StepToProject()
    ensures Property(DocRoot, "project", Omitted) == Ok(ProjectNode)
    ensures PathOf(ProjectNode) == "$root.project"
  {
    assert "." + "project" == ".project";
    assert DocRoot.path + [".project"] == ProjectNode.path;
    TextProject();
  }

  lemma StepToRepos()
    ensures Property(ProjectNode, "repositories", Omitted) == Ok(ReposNode)
    ensures PathOf(ReposNode) == "$root.project.repositories"
  {
    StepToProject();
    assert "." + "repositories" == ".repositories";
    assert ProjectNode.path + [".repositories"] == ReposNode.path;
    TextRepos();
  }

  lemma StepToRepo0()
    ensures Key(ReposNode, IntKey(0), Omitted) == Ok(Repo0Node)
    ensures PathOf(Repo0Node) == "$root.project.repositories[0]"
  {
    StepToRepos();
    assert KeyText(IntKey(0)) == "0";
    assert "[" + "0" + "]" == "[0]";
    assert ReposNode.path + ["[0]"] == Repo0Node.path;
    TextRepo0();
  }

  lemma StepToAuthor()
    ensures Property(ProjectNode, "author", Omitted) == Ok(AuthorNode)
    ensures PathOf(AuthorNode) == "$root.project.author"
  {
    StepToProject();
    assert "." + "author" == ".author";
    assert ProjectNode.path + [".author"] == AuthorNode.path;
    TextAuthor();
  }

  const ToRepositories: seq<Step> := [PropertyStep("project", Omitted), PropertyStep("repositories", Omitted)]

  lemma RunToRepos()
    ensures Run(DocRoot, ToRepositories) == Ok(ReposNode)
  {
    StepToRepos();
    StepToProject();
    assert ToRepositories[1..] == [PropertyStep("repositories", Omitted)];
    assert Run(ProjectNode, [PropertyStep("repositories", Omitted)]) == Run(ReposNode, []);
  }

  /** Only an object is accepted as the root: a string fails and an empty
      object passes, while an empty array, which the test suite expects to
      pass, fails too. */
  lemma RootShapes()
    ensures Root(Str("string")) == Fail(AssertionFailed("The given root object should be an object"))
    ensures Root(Obj(map[])).Ok?
    ensures Root(Arr(map[])).Fail?
    ensures Root(Doc) == Ok(DocRoot)
  {
  }

  // The failing calls at the end of the chains below, with their messages.

  lemma TextReposNotObject()
    ensures "$root.project.repositories" + " is not an object" == "$root.project.repositories is not an object"
  {
  }

  lemma ReposIsObjectFails()
    ensures IsObject(ReposNode) == Fail(AssertionFailed("$root.project.repositories is not an object"))
    ensures Property(ReposNode, "0", Omitted) == IsObject(ReposNode)
  {
    StepToRepos();
    TextReposNotObject();
  }

  lemma TextReposNoKey2()
    ensures "$root.project.repositories" + " does not have key " + "2" == "$root.project.repositories does not have key 2"
  {
    assert "$root.project.repositories" + " does not have key " == "$root.project.repositories does not have key ";
  }

  lemma ReposKey2Fails()
    ensures Key(ReposNode, IntKey(2), Omitted) == Fail(AssertionFailed("$root.project.repositories does not have key 2"))
  {
    StepToRepos();
    assert KeyText(IntKey(2)) == "2";
    TextReposNoKey2();
  }

  lemma TextNonexistingPath()
    ensures "$root.project.repositories[0]" + "." + "nonexisting" == "$root.project.repositories[0].nonexisting"
  {
    assert "$root.project.repositories[0]" + "." == "$root.project.repositories[0].";
  }

  /** Joining strings is associative; used to move the "property: " prefix
      onto a path one token at a time, so that no proof compares a long text
      against a short one prepended to another. */
  lemma AppendAssoc(a: string, b: string, c: string)
    ensures a + (b + c) == (a + b) + c
  {
  }

  lemma LabelRoot()
    ensures "property: " + "$root" == "property: $root"
  {
  }

  lemma LabelProject()
    ensures "property: " + "$root.project" == "property: $root.project"
  {
    LabelRoot();
    TextProject();
    assert "property: $root" + ".project" == "property: $root.project";
    AppendAssoc("property: ", "$root", ".project");
  }

  lemma LabelRepos()
    ensures "property: " + "$root.project.repositories" == "property: $root.project.repositories"
  {
    LabelProject();
    TextRepos();
    assert "property: $root.project" + ".repositories" == "property: $root.project.repositories";
    AppendAssoc("property: ", "$root.project", ".repositories");
  }

  lemma LabelRepo0()
    ensures "property: " + "$root.project.repositories[0]" == "property: $root.project.repositories[0]"
  {
    LabelRepos();
    TextRepo0();
    assert "property: $root.project.repositories" + "[0]" == "property: $root.project.repositories[0]";
    AppendAssoc("property: ", "$root.project.repositories", "[0]");
  }

  lemma TextNonexistingLabel()
    ensures "property: " + "$root.project.repositories[0].nonexisting" == "property: $root.project.repositories[0].nonexisting"
  {
    LabelRepo0();
    assert "$root.project.repositories[0]" + ".nonexisting" == "$root.project.repositories[0].nonexisting";
    assert "property: $root.project.repositories[0]" + ".nonexisting" == "property: $root.project.repositories[0].nonexisting";
    AppendAssoc("property: ", "$root.project.repositories[0]", ".nonexisting");
  }

  lemma TextNonexistingSuffix()
    ensures "property: $root.project.repositories[0].nonexisting" + " does not exist"
         == "property: $root.project.repositories[0].nonexisting does not exist"
  {
  }

  lemma TextNonexistingMessage()
    ensures "property: " + "$root.project.repositories[0].nonexisting" + " does not exist"
         == "property: $root.project.repositories[0].nonexisting does not exist"
  {
    TextNonexistingLabel();
    TextNonexistingSuffix();
  }

  lemma NonexistingText()
    ensures "property: " + "$root.project.repositories[0]" + "." + "nonexisting" + " does not exist"
         == "property: $root.project.repositories[0].nonexisting does not exist"
  {
    TextNonexistingPath();
    TextNonexistingMessage();
    var p := "$root.project.repositories[0]";
    assert "property: " + p + "." + "nonexisting" + " does not exist"
        == "property: " + (p + "." + "nonexisting") + " does not exist";
  }

  lemma Repo0NonexistingFails()
    ensures Property(Repo0Node, "nonexisting", Omitted)
         == Fail(AssertionFailed("property: $root.project.repositories[0].nonexisting does not exist"))
  {
    StepToRepo0();
    NonexistingText();
    assert "nonexisting" !in Repo0.fields;
  }

  /** A chain that reaches the repositories list and makes one more call. */
  lemma ReposThen(last: Step)
    ensures Run(DocRoot, ToRepositories + [last]) == Apply(ReposNode, last)
  {
    RunToRepos();
    RunAppend(DocRoot, ToRepositories, [last]);
    RunSingle(ReposNode, last);
  }

  /** The repositories list is an array, not an object, so both `isObject()`
      and `property("0")` on it fail naming its location. */
  lemma RepositoriesAreNotAnObject()
    ensures Run(DocRoot, ToRepositories + [IsObjectStep])
         == Fail(AssertionFailed("$root.project.repositories is not an object"))
    ensures Run(DocRoot, ToRepositories + [PropertyStep("0", Omitted)])
         == Fail(AssertionFailed("$root.project.repositories is not an object"))
  {
    ReposThen(IsObjectStep);
    ReposThen(PropertyStep("0", Omitted));
    ReposIsObjectFails();
  }

  lemma RunReposMissingKey()
    ensures Run(ReposNode, [IsArrayStep, KeyStep(IntKey(2), Omitted)]) == Key(ReposNode, IntKey(2), Omitted)
  {
    assert IsArray(ReposNode) == Ok(ReposNode);
    assert [IsArrayStep, KeyStep(IntKey(2), Omitted)][1..] == [KeyStep(IntKey(2), Omitted)];
    RunSingle(ReposNode, KeyStep(IntKey(2), Omitted));
  }

  /** A missing key is reported against the array's own location. */
  lemma MissingKey()
    ensures Run(DocRoot, ToRepositories + [IsArrayStep, KeyStep(IntKey(2), Omitted)])
         == Fail(AssertionFailed("$root.project.repositories does not have key 2"))
  {
    RunToRepos();
    RunAppend(DocRoot, ToRepositories, [IsArrayStep, KeyStep(IntKey(2), Omitted)]);
    RunReposMissingKey();
    ReposKey2Fails();
  }

  lemma RunSingle(n: Node, s: Step)
    ensures Run(n, [s]) == Apply(n, s)
  {
    assert [s][1..] == [];
  }

  const ToRepo0: seq<Step> := [IsArrayStep, KeyStep(IntKey(0), Omitted)]

  lemma RunReposToRepo0()
    ensures Run(ReposNode, ToRepo0) == Ok(Repo0Node)
  {
    StepToRepo0();
    assert ToRepo0[1..] == [KeyStep(IntKey(0), Omitted)];
    RunSingle(ReposNode, KeyStep(IntKey(0), Omitted));
  }

  /** A missing property is reported against the location it would have had. */
  lemma MissingPropertyBelowKey()
    ensures Run(DocRoot, ToRepositories + ToRepo0 + [PropertyStep("nonexisting", Omitted)])
         == Fail(AssertionFailed("property: $root.project.repositories[0].nonexisting does not exist"))
  {
    RunToRepos();
    RunReposToRepo0();
    Repo0NonexistingFails();
    RunSingle(Repo0Node, PropertyStep("nonexisting", Omitted));
    RunAppend(DocRoot, ToRepositories, ToRepo0);
    RunAppend(DocRoot, ToRepositories + ToRepo0, [PropertyStep("nonexisting", Omitted)]);
  }

  const UpAndAcross: seq<Step> := [EndStep, EndStep, EndStep, PropertyStep("author", Omitted), PropertyStep("label", Omitted)]

  lemma RunUpAndAcross(typeNode: Node)
    requires typeNode.context == Some(Repo0Node)
    ensures Run(typeNode, UpAndAcross) == Property(AuthorNode, "label", Omitted)
  {
    StepToAuthor();
    assert UpAndAcross[1..][1..][1..] == [PropertyStep("author", Omitted), PropertyStep("label", Omitted)];
    assert Run(typeNode, UpAndAcross) == Run(Repo0Node, UpAndAcross[1..]);
    assert Run(Repo0Node, UpAndAcross[1..]) == Run(ReposNode, UpAndAcross[1..][1..]);
    assert Run(ReposNode, UpAndAcross[1..][1..]) == Run(ProjectNode, UpAndAcross[1..][1..][1..]);
    assert UpAndAcross[1..][1..][1..][1..] == [PropertyStep("label", Omitted)];
    RunSingle(AuthorNode, PropertyStep("label", Omitted));
  }

  /** Three `end()` calls climb from a repository's type back to the project,
      from where the author's label is reached. */
  lemma LeaveNestedAssertions()
    ensures Run(DocRoot, ToRepositories + ToRepo0 + [PropertyStep("type", Omitted)] + UpAndAcross)
         == Property(AuthorNode, "label", Omitted)
    ensures Run(DocRoot, ToRepositories + ToRepo0 + [PropertyStep("type", Omitted)] + UpAndAcross).Ok?
  {
    RunToRepos();
    RunReposToRepo0();
    RunAppend(DocRoot, ToRepositories, ToRepo0);
    var typeNode := Property(Repo0Node, "type", Omitted).value;
    RunSingle(Repo0Node, PropertyStep("type", Omitted));
    RunAppend(DocRoot, ToRepositories + ToRepo0, [PropertyStep("type", Omitted)]);
    RunUpAndAcross(typeNode);
    RunAppend(DocRoot, ToRepositories + ToRepo0 + [PropertyStep("type", Omitted)], UpAndAcross);
  }

  lemma TextCreditsPath()
    ensures "$root.project.author" + "." + "credits" == "$root.project.author.credits"
  {
    assert "$root.project.author" + "." == "$root.project.author.";
  }

  lemma TextCreditsMessage()
    ensures "$root.project.author.credits" + " does not match" == "$root.project.author.credits does not match"
  {
  }

  lemma TextCreditsDoesNotMatch()
    ensures "$root.project.author" + "." + "credits" + " does not match" == "$root.project.author.credits does not match"
  {
    TextCreditsPath();
    TextCreditsMessage();
  }

  /** `property` with `equalTo` constraints on the author's credits. */
  lemma PropertyConstraint()
    ensures Property(AuthorNode, "credits", Constraint(EqualTo(Int(7)))).Ok?
    ensures Property(AuthorNode, "credits", Constraint(EqualTo(Int(5))))
         == Fail(AssertionFailed("$root.project.author.credits does not match"))
  {
    StepToAuthor();
    TextCreditsDoesNotMatch();
  }

  lemma TextRepo0Bracket()
    ensures "$root.project.repositories" + "[" + "0" + "]" == "$root.project.repositories[0]"
  {
    assert "[" + "0" + "]" == "[0]";
    TextRepo0();
  }

  lemma TextRepo0Message()
    ensures "$root.project.repositories[0]" + " does not match" == "$root.project.repositories[0] does not match"
  {
  }

  lemma Repo0DoesNotMatchText()
    ensures PathOf(ReposNode) + "[" + KeyText(IntKey(0)) + "]" + " does not match"
         == "$root.project.repositories[0] does not match"
  {
    StepToRepos();
    assert KeyText(IntKey(0)) == "0";
    TextRepo0Bracket();
    TextRepo0Message();
  }

  /** `key` with `isEmpty` and `logicalNot(isEmpty)` constraints on the first
      repository. */
  lemma KeyConstraint()
    ensures Key(ReposNode, IntKey(0), Constraint(NotEmpty)).Ok?
    ensures Key(ReposNode, IntKey(0), Constraint(IsEmpty))
         == Fail(AssertionFailed("$root.project.repositories[0] does not match"))
  {
    StepToRepo0();
    Repo0DoesNotMatchText();
    assert Truthy(Repo0);
  }

  lemma TextFirstNamePath()
    ensures "$root.project.author" + "." + "firstName" == "$root.project.author.firstName"
  {
    assert "$root.project.author" + "." == "$root.project.author.";
  }

  lemma TextFirstNameMessage()
    ensures "$root.project.author.firstName" + " does not match" == "$root.project.author.firstName does not match"
  {
  }

  lemma FirstNameDoesNotMatchText()
    ensures PathOf(AuthorNode) + "." + "firstName" + " does not match"
         == "$root.project.author.firstName does not match"
  {
    StepToAuthor();
    TextFirstNamePath();
    TextFirstNameMessage();
  }

  lemma WrongFirstNameFails()
    ensures Property(AuthorNode, "firstName", Plain(Str("WrongFirstName")))
         == Fail(AssertionFailed("$root.project.author.firstName does not match"))
  {
    FirstNameDoesNotMatchText();
    assert Author.fields["firstName"] != Str("WrongFirstName");
  }

  /** The shorthand naming the string a field holds passes. */
  lemma FieldShorthandPasses(n: Node, name: string)
    requires n.value.Obj? && name in n.value.fields && n.value.fields[name].Str?
    ensures Property(n, name, Plain(n.value.fields[name])).Ok?
  {
  }

  /** The string shorthands of the documentation example: each names the
      value the field holds, so each `property` call passes. */
  lemma DocuExampleShorthands()
    ensures Property(AuthorNode, "label", Plain(Str("Philipp Scheit"))).Ok?
    ensures Property(AuthorNode, "firstName", Plain(Str("Philipp"))).Ok?
    ensures Property(AuthorNode, "lastName", Plain(Str("Scheit"))).Ok?
    ensures Property(ProjectNode, "url", Plain(Str("www.repo.com"))).Ok?
  {
    FieldShorthandPasses(AuthorNode, "label");
    FieldShorthandPasses(AuthorNode, "firstName");
    FieldShorthandPasses(AuthorNode, "lastName");
    FieldShorthandPasses(ProjectNode, "url");
  }

  /** A string shorthand is `equalTo`, failing with the child's location on a
      different value. An integer shorthand, which the test suite expects to
      behave the same way, reaches `assertThat` as a plain integer and is
      rejected there; so is `0`, which is set though falsy. */
  lemma ScalarShorthand()
    ensures Property(ProjectNode, "id", Plain(Int(7))) == Fail(TypeError)
    ensures Property(ProjectNode, "id", Plain(Int(0))) == Fail(TypeError)
    ensures Property(AuthorNode, "firstName", Plain(Str("WrongFirstName")))
         == Fail(AssertionFailed("$root.project.author.firstName does not match"))
  {
    WrongFirstNameFails();
  }
}
