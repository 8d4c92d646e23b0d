/** RoleTemplate rendering (api/ephemeral-access/v1alpha1/roletemplate_types.go).
    Templates are made of literal text and variables; a piece that does not parse is `Broken`. */
module Templates {
  import opened Prelude

  datatype Variable = RoleVar | ProjectVar | ApplicationVar | NamespaceVar | UnknownVar

  datatype Piece = Literal(text: string) | Var(variable: Variable) | Broken

  type Text = seq<Piece>

  datatype RoleTemplate = RoleTemplate(ref: Ref, name: string, description: Text, policies: seq<Text>)

  /** A template whose description and policies no longer hold variables. */
  datatype Rendered = Rendered(ref: Ref, name: string, description: string, policies: seq<string>)

  const PREFIX := "ephemeral-"

  function RoleName(name: string, app: Ref): string {
    PREFIX + name + "-" + app.ns + "-" + app.name
  }

  function Lookup(variable: Variable, name: string, project: string, app: Ref): string {
    match variable
    case RoleVar => "proj:" + project + ":" + RoleName(name, app)
    case ProjectVar => project
    case ApplicationVar => app.name
    case NamespaceVar => app.ns
    case UnknownVar => "<no value>"
  }

  predicate Parses(text: Text) {
    Broken !in text
  }

  function Value(piece: Piece, name: string, project: string, app: Ref): string
    requires !piece.Broken?
  {
    match piece
    case Literal(s) => s
    case Var(v) => Lookup(v, name, project, app)
  }

  /** The text with every variable replaced by its value. */
  function Execute(text: Text, name: string, project: string, app: Ref): string
    requires Parses(text)
  {
    if text == [] then "" else Value(text[0], name, project, app) + Execute(text[1..], name, project, app)
  }

  function JoinTexts(texts: seq<Text>): Text {
    if texts == [] then []
    else if |texts| == 1 then texts[0]
    else texts[0] + [Literal("\n")] + JoinTexts(texts[1..])
  }

  /** Splits at every newline; the result is never empty. */
  function Split(s: string): (lines: seq<string>)
    ensures lines != []
  {
    if s == "" then [""]
    else
      var rest := Split(s[1..]);
      if s[0] == '\n' then [""] + rest else [[s[0]] + rest[0]] + rest[1..]
  }

  /** Rendering fails on an empty project, application or namespace and on text that does not parse. */
  function Render(rt: RoleTemplate, project: string, app: Ref): Result<Rendered> {
    if project == "" || app.name == "" || app.ns == "" then Err(Failed)
    else if !Parses(rt.description) || !Parses(JoinTexts(rt.policies)) then Err(Failed)
    else Ok(Rendered(rt.ref, rt.name,
                     Execute(rt.description, rt.name, project, app),
                     Split(Execute(JoinTexts(rt.policies), rt.name, project, app))))
  }

  // ---------------------------------------------------------------- rendering is pointwise

  predicate AllParse(texts: seq<Text>) {
    forall i :: 0 <= i < |texts| ==> Parses(texts[i])
  }

  function Each(texts: seq<Text>, name: string, project: string, app: Ref): (lines: seq<string>)
    requires AllParse(texts)
    ensures |lines| == |texts|
  {
    if texts == [] then []
    else [Execute(texts[0], name, project, app)] + Each(texts[1..], name, project, app)
  }

  function Join(lines: seq<string>): string {
    if lines == [] then ""
    else if |lines| == 1 then lines[0]
    else lines[0] + "\n" + Join(lines[1..])
  }

  function Newlines(s: string): nat {
    if s == "" then 0 else (if s[0] == '\n' then 1 else 0) + Newlines(s[1..])
  }

  function TotalNewlines(lines: seq<string>): nat {
    if lines == [] then 0 else Newlines(lines[0]) + TotalNewlines(lines[1..])
  }

  lemma {:induction false} JoinParses(texts: seq<Text>)
    ensures Parses(JoinTexts(texts)) <==> AllParse(texts)
  {
    if |texts| == 1 {
      assert texts == [texts[0]];
    } else if |texts| > 1 {
      JoinParses(texts[1..]);
      var whole := JoinTexts(texts);
      assert whole == texts[0] + [Literal("\n")] + JoinTexts(texts[1..]);
      assert AllParse(texts) <==> Parses(texts[0]) && AllParse(texts[1..]) by {
        assert texts == [texts[0]] + texts[1..];
      }
      assert Broken in whole <==> Broken in texts[0] || Broken in JoinTexts(texts[1..]);
    }
  }

  lemma ConcatAssociates(x: string, y: string, z: string)
    ensures x + (y + z) == (x + y) + z
  {
  }

  lemma {:induction false} ExecuteAppend(a: Text, b: Text, name: string, project: string, app: Ref)
    requires Parses(a) && Parses(b)
    ensures Parses(a + b)
    ensures Execute(a + b, name, project, app) == Execute(a, name, project, app) + Execute(b, name, project, app)
  {
    if a == [] {
      assert a + b == b;
    } else {
      var rest := a[1..];
      assert Parses(rest);
      ExecuteAppend(rest, b, name, project, app);
      assert (a + b)[1..] == rest + b && (a + b)[0] == a[0];
      ConcatAssociates(Value(a[0], name, project, app), Execute(rest, name, project, app),
                       Execute(b, name, project, app));
    }
  }

  lemma {:induction false} ExecuteJoin(texts: seq<Text>, name: string, project: string, app: Ref)
    requires AllParse(texts)
    ensures Parses(JoinTexts(texts))
    ensures Execute(JoinTexts(texts), name, project, app) == Join(Each(texts, name, project, app))
  {
    JoinParses(texts);
    if |texts| == 1 {
      assert Each(texts, name, project, app) == [Execute(texts[0], name, project, app)];
    } else if |texts| > 1 {
      var newline := [Literal("\n")];
      ExecuteJoin(texts[1..], name, project, app);
      ExecuteAppend(texts[0] + newline, JoinTexts(texts[1..]), name, project, app);
      ExecuteAppend(texts[0], newline, name, project, app);
      assert Execute(newline, name, project, app) == "\n" by {
        assert newline[1..] == [];
      }
      var each := Each(texts, name, project, app);
      assert each[1..] == Each(texts[1..], name, project, app);
    }
  }

  lemma {:induction false} SplitLength(s: string)
    ensures |Split(s)| == 1 + Newlines(s)
    ensures Newlines(s) == 0 ==> Split(s) == [s]
  {
    if s != "" {
      SplitLength(s[1..]);
      assert s == [s[0]] + s[1..];
    }
  }

  lemma {:induction false} SplitAtNewline(a: string, b: string)
    requires Newlines(a) == 0
    ensures Split(a + "\n" + b) == [a] + Split(b)
  {
    if a == "" {
      assert (a + "\n" + b)[1..] == b;
    } else {
      SplitAtNewline(a[1..], b);
      assert (a + "\n" + b)[1..] == a[1..] + "\n" + b;
      assert a == [a[0]] + a[1..];
    }
  }

  lemma {:induction false} NewlinesAppend(a: string, b: string)
    ensures Newlines(a + b) == Newlines(a) + Newlines(b)
  {
    if a == "" {
      assert a + b == b;
    } else {
      NewlinesAppend(a[1..], b);
      assert (a + b)[1..] == a[1..] + b;
    }
  }

  lemma {:induction false} NewlinesJoin(lines: seq<string>)
    requires lines != []
    ensures Newlines(Join(lines)) == TotalNewlines(lines) + |lines| - 1
  {
    if |lines| > 1 {
      NewlinesJoin(lines[1..]);
      NewlinesAppend(lines[0] + "\n", Join(lines[1..]));
      NewlinesAppend(lines[0], "\n");
      assert Newlines("\n") == 1 by { assert "\n"[1..] == ""; }
    } else {
      assert lines[1..] == [];
    }
  }

  /** Joining and splitting give the list back exactly when it is non-empty and no line holds
      a newline. */
  lemma {:induction false} SplitJoin(lines: seq<string>)
    ensures Split(Join(lines)) == lines <==> lines != [] && TotalNewlines(lines) == 0
  {
    if lines == [] {
    } else if TotalNewlines(lines) != 0 {
      NewlinesJoin(lines);
      SplitLength(Join(lines));
    } else if |lines| == 1 {
      SplitLength(lines[0]);
    } else {
      SplitJoin(lines[1..]);
      SplitAtNewline(lines[0], Join(lines[1..]));
    }
  }

  /** Rendering the joined policies equals rendering each policy alone exactly when the template
      has a policy and no rendered policy holds a newline. The role name never depends on the
      rendering. */
  lemma RenderIsPointwise(rt: RoleTemplate, project: string, app: Ref)
    requires Render(rt, project, app).Ok?
    ensures AllParse(rt.policies)
    ensures Render(rt, project, app).value.name == rt.name
    ensures Render(rt, project, app).value.policies == Each(rt.policies, rt.name, project, app)
        <==> rt.policies != [] && TotalNewlines(Each(rt.policies, rt.name, project, app)) == 0
  {
    JoinParses(rt.policies);
    ExecuteJoin(rt.policies, rt.name, project, app);
    SplitJoin(Each(rt.policies, rt.name, project, app));
  }

  // ---------------------------------------------------------------- what is rendered

  /** Rendering fails exactly on an empty project, application or namespace and on a description or
      policy that does not parse. */
  lemma RenderFailsIff(rt: RoleTemplate, project: string, app: Ref)
    ensures Render(rt, project, app).Err? <==>
              || project == "" || app.name == "" || app.ns == ""
              || Broken in rt.description || exists i :: 0 <= i < |rt.policies| && Broken in rt.policies[i]
  {
    JoinParses(rt.policies);
  }

  /** What a variable stands for, written out. */
  function Meaning(v: Variable, name: string, project: string, app: Ref): string {
    match v
    case ProjectVar => project
    case ApplicationVar => app.name
    case NamespaceVar => app.ns
    case RoleVar => "proj:" + project + ":ephemeral-" + name + "-" + app.ns + "-" + app.name
    case UnknownVar => "<no value>"
  }

  lemma RoleNameMeans(name: string, project: string, app: Ref)
    ensures RoleName(name, app) == "ephemeral-" + name + "-" + app.ns + "-" + app.name
    ensures Lookup(RoleVar, name, project, app) == Meaning(RoleVar, name, project, app)
  {
    var rest := name + "-" + app.ns + "-" + app.name;
    assert RoleName(name, app) == "ephemeral-" + rest;
    assert ("proj:" + project + ":") + ("ephemeral-" + rest) == ("proj:" + project + ":ephemeral-") + rest;
  }

  lemma PieceRenders(piece: Piece, name: string, project: string, app: Ref)
    requires !piece.Broken?
    ensures Parses([piece]) && Execute([piece], name, project, app) == Value(piece, name, project, app)
  {
    assert [piece][1..] == [];
  }

  /** Wherever it stands in a text, literal text is kept and a variable replaced by what it stands for. */
  lemma TextRenders(before: Text, piece: Piece, after: Text, name: string, project: string, app: Ref)
    requires Parses(before) && Parses(after) && !piece.Broken?
    ensures Parses(before + [piece] + after)
    ensures Execute([], name, project, app) == ""
    ensures Execute(before + [piece] + after, name, project, app)
         == Execute(before, name, project, app)
            + (if piece.Literal? then piece.text else Meaning(piece.variable, name, project, app))
            + Execute(after, name, project, app)
  {
    PieceRenders(piece, name, project, app);
    RoleNameMeans(name, project, app);
    ExecuteAppend(before, [piece], name, project, app);
    ExecuteAppend(before + [piece], after, name, project, app);
  }

  lemma AroundVariable(p: string, v: Variable, q: string, name: string, project: string, app: Ref)
    ensures Parses([Literal(p), Var(v), Literal(q)])
    ensures Execute([Literal(p), Var(v), Literal(q)], name, project, app)
         == p + Meaning(v, name, project, app) + q
  {
    TextRenders([Literal(p)], Var(v), [Literal(q)], name, project, app);
    PieceRenders(Literal(p), name, project, app);
    PieceRenders(Literal(q), name, project, app);
    assert [Literal(p)] + [Var(v)] + [Literal(q)] == [Literal(p), Var(v), Literal(q)];
  }

  /** A template whose description and only policy are a variable between two texts is rendered to what
      the variable stands for between those texts, unless that is several lines. */
  lemma RendersTo(ref: Ref, name: string, p: string, v: Variable, q: string, project: string, app: Ref)
    requires project != "" && app.name != "" && app.ns != ""
    requires Newlines(p + Meaning(v, name, project, app) + q) == 0
    ensures var text := [Literal(p), Var(v), Literal(q)];
      Render(RoleTemplate(ref, name, text, [text]), project, app)
      == Ok(Rendered(ref, name, p + Meaning(v, name, project, app) + q, [p + Meaning(v, name, project, app) + q]))
  {
    AroundVariable(p, v, q, name, project, app);
    SplitLength(p + Meaning(v, name, project, app) + q);
  }
}
