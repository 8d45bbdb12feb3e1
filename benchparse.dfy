/**
 * The per-line parser of the string-keyed `Circuit.parseBenchFile` (ISCAS `.bench`
 * netlists): after `trim()`, a line is a comment or blank, an `INPUT(...)` or
 * `OUTPUT(...)` declaration, or a gate definition `out = TYPE(in1, in2, ...)`.
 */
module BenchParse {

  import opened Wrappers
  import opened Text

  type Error = Exception<string>

  /** What one line of a `.bench` file declares. */
  datatype Decl =
    | Skip
    | InputDecl(id: string)
    | OutputDecl(id: string)
    | GateDecl(output: string, gateType: string, inputs: seq<string>)

  /**
   * `substring(indexOf("(") + 1, indexOf(")")).trim()`: the text between the first
   * '(' and the first ')'; out of bounds when there is no ')' or it comes first.
   */
  function ParenText(s: string): Result<string, Error> {
    var begin := IndexOf(s, '(') + 1;
    var end := IndexOf(s, ')');
    if end < begin then Err(IndexOutOfBounds) else Ok(Trim(s[begin..end]))
  }

  /** BUFF and NOT gates take the whole parenthesised text as their one input. */
  predicate TakesOneInput(gateType: string) {
    EqualsIgnoreCase(gateType, "BUFF") || EqualsIgnoreCase(gateType, "NOT")
  }

  function TrimAll(parts: seq<string>): (r: seq<string>)
    ensures |r| == |parts| && forall i :: 0 <= i < |parts| ==> r[i] == Trim(parts[i])
  {
    seq(|parts|, i requires 0 <= i < |parts| => Trim(parts[i]))
  }

  /** The input ids of a gate, from the text inside its parentheses. */
  function InputIds(gateType: string, inside: string): seq<string> {
    if TakesOneInput(gateType) then [inside] else TrimAll(Split(inside, {','}))
  }

  /** A gate definition line: split on '=', then the type before '(' and the inputs inside the parentheses. */
  function ParseGate(s: string): Result<Decl, Error> {
    var parts := Split(s, {'='});
    if |parts| != 2 then Err(InvalidGateDefinition(s))
    else ParseDefinition(parts[0], parts[1])
  }

  /** The two sides of a gate definition: the output id, then the type before '(' and the inputs inside the parentheses. */
  function ParseDefinition(left: string, right: string): Result<Decl, Error> {
    var outputId := Trim(left);
    var gateDef := Trim(right);
    var gateTypeEnd := IndexOf(gateDef, '(');
    if gateTypeEnd == -1 || !EndsWith(gateDef, ")") then Err(InvalidGateFormat(gateDef))
    else
      var gateType := Trim(gateDef[..gateTypeEnd]);
      var inside := Trim(gateDef[gateTypeEnd + 1..|gateDef| - 1]);
      Ok(GateDecl(outputId, gateType, InputIds(gateType, inside)))
  }

  /** One line of the file, classified in the order of the source's `if` chain. */
  function ParseLine(raw: string): Result<Decl, Error> {
    var s := Trim(raw);
    if StartsWith(s, "#") || s == [] then Ok(Skip)
    else if StartsWith(s, "INPUT") then
      match ParenText(s)
      case Ok(id) => Ok(InputDecl(id))
      case Err(e) => Err(e)
    else if StartsWith(s, "OUTPUT") then
      match ParenText(s)
      case Ok(id) => Ok(OutputDecl(id))
      case Err(e) => Err(e)
    else if '=' in s then ParseGate(s)
    else Ok(Skip)
  }

  /**
   * A line fails only as a declaration whose parentheses are out of order, or as a
   * gate definition the source rejects with an IllegalArgumentException.
   */
  lemma ParseLineErrors(raw: string)
    ensures var s := Trim(raw);
      ParseLine(raw).Err? ==>
        (ParseLine(raw).error == IndexOutOfBounds && (StartsWith(s, "INPUT") || StartsWith(s, "OUTPUT"))) ||
        (ParseLine(raw).error.IsIllegalArgument() && '=' in s)
    ensures var s := Trim(raw);
      s == [] || StartsWith(s, "#") || (!StartsWith(s, "INPUT") && !StartsWith(s, "OUTPUT") && '=' !in s) ==>
        ParseLine(raw) == Ok(Skip)
  {
  }

  // ---------------------------------------------------------------------------
  // Writing lines back
  // ---------------------------------------------------------------------------

  /** A signal or type name as the netlists use them: no spaces, no punctuation the format reserves. */
  predicate IsName(n: string) {
    n != [] && forall i :: 0 <= i < |n| ==> !IsJavaSpace(n[i]) && n[i] !in {'=', '(', ')', ',', '#'}
  }

  /** Names joined with ", ", as the netlists list gate inputs. */
  function Join(ins: seq<string>): string {
    if |ins| <= 1 then (if ins == [] then "" else ins[0])
    else Join(ins[..|ins| - 1]) + ", " + ins[|ins| - 1]
  }

  /** `INPUT(id)` or `OUTPUT(id)`. */
  function DeclLine(kind: string, id: string): string {
    kind + "(" + id + ")"
  }

  /** `output = TYPE(in1, in2, ...)`. */
  function GateLine(output: string, gateType: string, inputs: seq<string>): string {
    output + " = " + gateType + "(" + Join(inputs) + ")"
  }

  lemma NameIsTrimmed(n: string)
    requires IsName(n)
    ensures Trim(n) == n && Trim([' '] + n) == n && Trim(n + [' ']) == n
  {
    TrimOfUnpadded(n);
    TrimOfPadded(n);
  }

  /** A line starts with a keyword only if its first character is the keyword's. */
  lemma FirstChar(s: string, keyword: string)
    requires keyword != [] && StartsWith(s, keyword)
    ensures s != [] && s[0] == keyword[0]
  {
    assert s[0] == s[..|keyword|][0];
  }

  /** A trimmed line that is neither blank, a comment nor a declaration, and holds '=', is a gate definition. */
  lemma ParseLineOfGate(s: string)
    requires Trim(s) == s && s != [] && s[0] != '#' && '=' in s
    requires !StartsWith(s, "INPUT") && !StartsWith(s, "OUTPUT")
    ensures ParseLine(s) == ParseGate(s)
  {
    if StartsWith(s, "#") {
      FirstChar(s, "#");
    }
  }

  /** The text between the first '(' and the first ')' of `head(id)`, where `head` has neither. */
  lemma ParenTextOf(head: string, id: string)
    requires IsName(id) && '(' !in head && ')' !in head
    ensures ParenText(head + "(" + id + ")") == Ok(id)
  {
    Bracketed(head, '(', id, ')');
    IndexOfAfter(head, '(', id + ")");
    assert ')' !in head + "(" + id by {
      assert IsName(id);
    }
    IndexOfAfter(head + "(" + id, ')', []);
    NameIsTrimmed(id);
  }

  /** `KIND(id)` is already trimmed, starts with its keyword, and has `id` between its parentheses. */
  lemma DeclLineParts(kind: string, id: string)
    requires IsName(id) && kind != [] && !IsJavaSpace(kind[0]) && '(' !in kind && ')' !in kind
    ensures var s := DeclLine(kind, id);
      Trim(s) == s && StartsWith(s, kind) && s[0] == kind[0] && ParenText(s) == Ok(id)
  {
    var s := DeclLine(kind, id);
    assert Trim(s) == s by {
      assert s[|s| - 1] == ')';
      TrimOfUnpadded(s);
    }
    assert s[..|kind|] == kind;
    ParenTextOf(kind, id);
  }

  /** A declaration line reads back as the declaration of its name. */
  lemma DeclLineRoundTrip(id: string)
    requires IsName(id)
    ensures ParseLine(DeclLine("INPUT", id)) == Ok(InputDecl(id))
    ensures ParseLine(DeclLine("OUTPUT", id)) == Ok(OutputDecl(id))
  {
    var input := DeclLine("INPUT", id);
    var output := DeclLine("OUTPUT", id);
    DeclLineParts("INPUT", id);
    DeclLineParts("OUTPUT", id);
    if StartsWith(input, "#") {
      FirstChar(input, "#");
    }
    if StartsWith(output, "#") {
      FirstChar(output, "#");
    }
    if StartsWith(output, "INPUT") {
      FirstChar(output, "INPUT");
    }
  }

  /** Output name, " = ", definition: splitting on '=' gives the two sides, each trimmed back. */
  lemma SplitAtEquals(output: string, gateDef: string)
    requires IsName(output) && gateDef != [] && '=' !in gateDef
    requires !IsJavaSpace(gateDef[0]) && !IsJavaSpace(gateDef[|gateDef| - 1])
    ensures Split(output + " = " + gateDef, {'='}) == [output + [' '], [' '] + gateDef]
  {
    Spaced(output, '=', gateDef);
    assert forall i :: 0 <= i < |output + [' ']| ==> (output + [' '])[i] !in {'='};
    SplitAtOne(output + [' '], '=', [' '] + gateDef, {'='});
  }

  /** `TYPE(inside)`: the type is the text before the first '(' and `inside` is the text between it and the final ')'. */
  lemma GateDefParts(gateType: string, inside: string)
    requires IsName(gateType) && '(' !in inside
    ensures var d := gateType + "(" + inside + ")";
      IndexOf(d, '(') == |gateType| && EndsWith(d, ")") &&
      d[..|gateType|] == gateType && d[|gateType| + 1..|d| - 1] == inside
  {
    var d := gateType + "(" + inside + ")";
    assert d == gateType + ['('] + (inside + ")");
    IndexOfAfter(gateType, '(', inside + ")");
  }

  /** A gate definition line parses to the output name, the type and the input ids of the text inside the parentheses. */
  lemma ParseGateOf(output: string, gateType: string, inside: string)
    requires IsName(output) && IsName(gateType) && '(' !in inside && '=' !in inside && Trim(inside) == inside
    ensures ParseGate(output + " = " + gateType + "(" + inside + ")") ==
            Ok(GateDecl(output, gateType, InputIds(gateType, inside)))
  {
    var d := gateType + "(" + inside + ")";
    assert output + " = " + gateType + "(" + inside + ")" == output + " = " + d;
    assert d[0] == gateType[0] && d[|d| - 1] == ')';
    SplitAtEquals(output, d);
    NameIsTrimmed(output);
    TrimOfPadded(d);
    GateDefParts(gateType, inside);
    NameIsTrimmed(gateType);
  }

  lemma {:induction false} JoinShape(ins: seq<string>)
    requires |ins| >= 1 && forall i :: 0 <= i < |ins| ==> IsName(ins[i])
    ensures var j := Join(ins);
      j != [] && !IsJavaSpace(j[0]) && !IsJavaSpace(j[|j| - 1]) && '(' !in j && ')' !in j && '=' !in j
  {
    assert IsName(ins[0]) && IsName(ins[|ins| - 1]);
    if |ins| > 1 {
      JoinShape(ins[..|ins| - 1]);
    }
  }

  /** Joining one more name adds one more piece, a space and that name. */
  lemma JoinSplitStep(ins: seq<string>)
    requires |ins| >= 2 && IsName(ins[|ins| - 1])
    ensures SplitAll(Join(ins), {','}) == SplitAll(Join(ins[..|ins| - 1]), {','}) + [[' '] + ins[|ins| - 1]]
    ensures FirstOf(Join(ins), {','}) >= 0
  {
    var init := ins[..|ins| - 1];
    var last := ins[|ins| - 1];
    assert Join(ins) == Join(init) + [','] + ([' '] + last);
    assert forall i :: 0 <= i < |[' '] + last| ==> ([' '] + last)[i] !in {','} by {
      assert IsName(last);
    }
    SplitAllAtLast(Join(init), ',', [' '] + last, {','});
  }

  /** Splitting a joined list on ',' gives one piece per name, each trimming back to its name. */
  lemma {:induction false} JoinPieces(ins: seq<string>)
    requires |ins| >= 1 && forall i :: 0 <= i < |ins| ==> IsName(ins[i])
    ensures TrimAll(SplitAll(Join(ins), {','})) == ins
  {
    var last := ins[|ins| - 1];
    assert IsName(last);
    NameIsTrimmed(last);
    if |ins| == 1 {
      FirstOfNone(ins[0], {','});
    } else {
      var init := ins[..|ins| - 1];
      JoinPieces(init);
      JoinSplitStep(ins);
      TrimAllSnoc(SplitAll(Join(init), {','}), [' '] + last);
      InitAndLast(ins);
    }
  }

  lemma InitAndLast<T>(xs: seq<T>)
    requires xs != []
    ensures xs == xs[..|xs| - 1] + [xs[|xs| - 1]]
  {
  }

  lemma TrimAllSnoc(parts: seq<string>, p: string)
    ensures TrimAll(parts + [p]) == TrimAll(parts) + [Trim(p)]
  {
  }

  /** A joined list never ends in an empty piece, so `split` keeps every piece. */
  lemma SplitOfJoinKeepsPieces(ins: seq<string>)
    requires |ins| >= 1 && IsName(ins[|ins| - 1])
    ensures Split(Join(ins), {','}) == SplitAll(Join(ins), {','})
  {
    if |ins| == 1 {
      FirstOfNone(ins[0], {','});
    } else {
      JoinSplitStep(ins);
    }
  }

  /** `split` and `trim` take a joined list of names back to the names. */
  lemma SplitOfJoin(ins: seq<string>)
    requires |ins| >= 1 && forall i :: 0 <= i < |ins| ==> IsName(ins[i])
    ensures TrimAll(Split(Join(ins), {','})) == ins
  {
    assert IsName(ins[|ins| - 1]);
    SplitOfJoinKeepsPieces(ins);
    JoinPieces(ins);
  }

  /** The input list of a joined list of names is those names again. */
  lemma InputIdsOfJoin(gateType: string, ins: seq<string>)
    requires |ins| >= 1 && forall i :: 0 <= i < |ins| ==> IsName(ins[i])
    requires TakesOneInput(gateType) ==> |ins| == 1
    ensures InputIds(gateType, Join(ins)) == ins
  {
    if !TakesOneInput(gateType) {
      SplitOfJoin(ins);
    }
  }

  /** An output name that has no space cannot start with a keyword unless the name itself does. */
  lemma KeywordNeedsName(name: string, rest: string, keyword: string)
    requires IsName(name) && rest != [] && rest[0] == ' '
    requires forall i :: 0 <= i < |keyword| ==> !IsJavaSpace(keyword[i])
    ensures StartsWith(name + rest, keyword) ==> StartsWith(name, keyword)
  {
    if |keyword| <= |name| {
      assert (name + rest)[..|keyword|] == name[..|keyword|];
    } else {
      assert (name + rest)[|name|] == ' ';
    }
  }

  /**
   * A gate line written from a name, a type and at least one input name reads back
   * as that gate, provided the output name does not itself start with a keyword and a
   * BUFF or NOT gate has exactly one input.
   */
  lemma GateLineRoundTrip(output: string, gateType: string, inputs: seq<string>)
    requires IsName(output) && IsName(gateType)
    requires |inputs| >= 1 && forall i :: 0 <= i < |inputs| ==> IsName(inputs[i])
    requires TakesOneInput(gateType) ==> |inputs| == 1
    requires !StartsWith(output, "INPUT") && !StartsWith(output, "OUTPUT")
    ensures ParseLine(GateLine(output, gateType, inputs)) == Ok(GateDecl(output, gateType, inputs))
  {
    var joined := Join(inputs);
    JoinShape(inputs);
    TrimOfUnpadded(joined);
    var s := GateLine(output, gateType, inputs);
    var rest := " = " + gateType + "(" + joined + ")";
    assert s == output + rest;
    assert s[0] == output[0] && s[|s| - 1] == ')' && s[|output| + 1] == '=';
    TrimOfUnpadded(s);
    KeywordNeedsName(output, rest, "INPUT");
    KeywordNeedsName(output, rest, "OUTPUT");
    ParseLineOfGate(s);
    ParseGateOf(output, gateType, joined);
    InputIdsOfJoin(gateType, inputs);
  }

  // ---------------------------------------------------------------------------
  // What the line parser does with unusual lines
  // ---------------------------------------------------------------------------

  /**
   * A one-input gate whose output name starts with "INPUT" is read as a declaration
   * of an input named after its argument: the keyword test comes before the '=' test.
   */
  lemma KeywordNamedOutputIsMisread(output: string, gateType: string, input: string)
    requires IsName(output) && IsName(gateType) && IsName(input) && StartsWith(output, "INPUT")
    ensures ParseLine(GateLine(output, gateType, [input])) == Ok(InputDecl(input))
  {
    var s := GateLine(output, gateType, [input]);
    var head := output + " = " + gateType;
    GateLineOfOne(output, gateType, input);
    ParenTextOf(head, input);
    StartsWithExtends(output, " = ", "INPUT");
    StartsWithExtends(output + " = ", gateType, "INPUT");
    StartsWithExtends(head, "(", "INPUT");
    StartsWithExtends(head + "(", input, "INPUT");
    StartsWithExtends(head + "(" + input, ")", "INPUT");
    if StartsWith(s, "#") {
      FirstChar(s, "#");
    }
  }

  /** A one-input gate line is its head, then the input in parentheses; it has no padding, and no parenthesis before the input. */
  lemma GateLineOfOne(output: string, gateType: string, input: string)
    requires IsName(output) && IsName(gateType) && IsName(input)
    ensures var s := GateLine(output, gateType, [input]);
      var head := output + " = " + gateType;
      s == head + "(" + input + ")" && '(' !in head && ')' !in head && Trim(s) == s && s[0] == output[0]
  {
    var s := GateLine(output, gateType, [input]);
    assert '(' !in output + " = " + gateType && ')' !in output + " = " + gateType by {
      assert IsName(output) && IsName(gateType);
    }
    assert s[0] == output[0] && s[|s| - 1] == ')';
    TrimOfUnpadded(s);
  }

  /** An empty argument list gives one input with the empty id: splitting empty text gives one empty piece. */
  lemma EmptyArgumentsGiveEmptyInput(output: string, gateType: string)
    requires IsName(output) && IsName(gateType) && !TakesOneInput(gateType)
    ensures ParseGate(output + " = " + gateType + "()") == Ok(GateDecl(output, gateType, [""]))
  {
    assert output + " = " + gateType + "()" == output + " = " + gateType + "(" + "" + ")";
    TrimOfUnpadded("");
    ParseGateOf(output, gateType, "");
    assert InputIds(gateType, "") == [""] by {
      FirstOfNone("", {','});
      assert Split("", {','}) == [""];
    }
  }

  lemma SplitAtTwoEquals(a: string, b: string, c: string)
    requires '=' !in a && '=' !in b && '=' !in c && c != []
    ensures Split(a + "=" + b + "=" + c, {'='}) == [a, b, c]
  {
    SplitAtTwo(a, '=', b, c, {'='});
  }

  /** A definition with two '=' splits into three pieces and is rejected. */
  lemma TwoEqualsAreRejected(a: string, b: string, c: string)
    requires '=' !in a && '=' !in b && '=' !in c && c != []
    ensures ParseGate(a + "=" + b + "=" + c) == Err(InvalidGateDefinition(a + "=" + b + "=" + c))
  {
    SplitAtTwoEquals(a, b, c);
  }

  /** A trailing '=' is ignored, since splitting drops trailing empty pieces. */
  lemma TrailingEqualsIsIgnored(s: string)
    ensures ParseGate(s).Ok? ==> ParseGate(s + "=") == ParseGate(s)
  {
    if ParseGate(s).Ok? {
      assert |Split(s, {'='})| == 2 && FirstOf(s, {'='}) >= 0;
      SplitDropsTrailingSeparator(s, '=', {'='});
      ParseGateOfPieces(s + "=", s);
    }
  }

  /** A definition with two pieces is parsed from its pieces alone. */
  lemma ParseGateOfPieces(s: string, t: string)
    requires Split(s, {'='}) == Split(t, {'='}) && |Split(s, {'='})| == 2
    ensures ParseGate(s) == ParseGate(t)
  {
  }
}
