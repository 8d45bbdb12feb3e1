/**
 * The per-line parser of the int-keyed `Circuit.parseBenchFile` in
 * `BenchmarkParser.java`. Line ids are integers: a declaration's id is the number
 * formed by every digit of the line, and a gate line `out = TYPE(in1, in2, ...)`
 * is cut with `split("=")`, `split("[()]")` and `split(",")`, each number read by
 * `Integer.parseInt`.
 */
module IntParse {

  import opened Wrappers
  import opened Text
  import BenchParse

  type Error = Exception<int>

  /** What one line declares. */
  datatype Decl =
    | Skip
    | InputDecl(id: int)
    | OutputDecl(id: int)
    | GateDecl(output: int, gateType: string, inputs: seq<int>)

  /** `Integer.parseInt`, raising NumberFormatException with the text it could not read. */
  function Number(s: string): (r: Result<int, Error>)
    ensures r.Ok? <==> ParseInt(s).Some?
    ensures r.Ok? ==> r.value == ParseInt(s).value
    ensures r.Err? ==> r.error == NumberFormat(s)
  {
    match ParseInt(s)
    case None => Err(NumberFormat(s))
    case Some(n) => Ok(n)
  }

  /** The gate's inputs: each comma-separated piece trimmed and read as a number, the first bad one raising. */
  function Numbers(pieces: seq<string>): (r: Result<seq<int>, Error>)
    ensures r.Ok? <==> forall i :: 0 <= i < |pieces| ==> ParseInt(Trim(pieces[i])).Some?
    ensures r.Ok? ==> |r.value| == |pieces| && forall i :: 0 <= i < |pieces| ==> Some(r.value[i]) == ParseInt(Trim(pieces[i]))
    ensures r.Err? ==> r.error.NumberFormat? && exists i :: 0 <= i < |pieces| && r.error == NumberFormat(Trim(pieces[i]))
  {
    if pieces == [] then Ok([])
    else
      var init := pieces[..|pieces| - 1];
      var last := pieces[|pieces| - 1];
      match Numbers(init)
      case Err(e) => Err(e)
      case Ok(ns) =>
        match Number(Trim(last))
        case Err(e) => Err(e)
        case Ok(n) => Ok(ns + [n])
  }

  /** `Integer.parseInt(line.replaceAll("[^0-9]", ""))`: every digit of the line, read as one number. */
  function DeclId(s: string): (r: Result<int, Error>)
    ensures r.Ok? <==> DigitsOf(s) != []
    ensures r.Ok? ==> r.value == DigitsValue(DigitsOf(s))
    ensures r.Err? ==> r == Err(NumberFormat(""))
  {
    ParseIntMeaning(DigitsOf(s));
    Number(DigitsOf(s))
  }

  /** The gate branch: output before '=', then the trimmed definition after it. */
  function ParseGate(s: string): Result<Decl, Error> {
    var parts := Split(s, {'='});
    if |parts| == 0 then Err(IndexOutOfBounds)
    else
      match Number(Trim(parts[0]))
      case Err(e) => Err(e)
      case Ok(output) => if |parts| < 2 then Err(IndexOutOfBounds) else GateDef(output, Trim(parts[1]))
  }

  /** A definition `TYPE(in1, in2, ...)`: the type before '(', the inputs between the parentheses. */
  function GateDef(output: int, def: string): Result<Decl, Error> {
    var gateParts := Split(def, {'(', ')'});
    if |gateParts| < 2 then Err(IndexOutOfBounds)
    else
      match Numbers(Split(gateParts[1], {','}))
      case Err(e) => Err(e)
      case Ok(ins) => Ok(GateDecl(output, Trim(gateParts[0]), ins))
  }

  /** One line of the file, classified in the order of the source's `if` chain. */
  function ParseLine(raw: string): Result<Decl, Error> {
    var s := Trim(raw);
    if StartsWith(s, "#") || s == [] then Ok(Skip)
    else if StartsWith(s, "INPUT") then
      match DeclId(s)
      case Ok(id) => Ok(InputDecl(id))
      case Err(e) => Err(e)
    else if StartsWith(s, "OUTPUT") then
      match DeclId(s)
      case Ok(id) => Ok(OutputDecl(id))
      case Err(e) => Err(e)
    else ParseGate(s)
  }

  /**
   * Blank and '#' lines are skipped; a declaration reads the digits of the whole
   * line and fails only when there are none; every other line is a gate line.
   */
  lemma ParseLineCases(raw: string)
    ensures var s := Trim(raw);
      (s == [] || StartsWith(s, "#")) ==> ParseLine(raw) == Ok(Skip)
    ensures var s := Trim(raw);
      s != [] && !StartsWith(s, "#") && StartsWith(s, "INPUT") ==>
        ParseLine(raw) == if DigitsOf(s) == [] then Err(NumberFormat("")) else Ok(InputDecl(DigitsValue(DigitsOf(s))))
    ensures var s := Trim(raw);
      s != [] && !StartsWith(s, "#") && !StartsWith(s, "INPUT") && StartsWith(s, "OUTPUT") ==>
        ParseLine(raw) == if DigitsOf(s) == [] then Err(NumberFormat("")) else Ok(OutputDecl(DigitsValue(DigitsOf(s))))
    ensures var s := Trim(raw);
      s != [] && !StartsWith(s, "#") && !StartsWith(s, "INPUT") && !StartsWith(s, "OUTPUT") ==> ParseLine(raw) == ParseGate(s)
  {
  }

  /** A gate line fails with an out-of-bounds index or an unreadable number, never otherwise. */
  lemma ParseGateErrors(s: string)
    ensures ParseGate(s).Err? ==> ParseGate(s).error == IndexOutOfBounds || ParseGate(s).error.NumberFormat?
    ensures ParseGate(s).Ok? ==> ParseGate(s).value.GateDecl?
  {
  }

  // ---------------------------------------------------------------------------
  // Writing lines back
  // ---------------------------------------------------------------------------

  function Decimals(ns: seq<nat>): (r: seq<string>)
    ensures |r| == |ns| && forall i :: 0 <= i < |ns| ==> r[i] == Decimal(ns[i])
  {
    seq(|ns|, i requires 0 <= i < |ns| => Decimal(ns[i]))
  }

  /** `INPUT(n)` or `OUTPUT(n)`. */
  function DeclLine(kind: string, n: nat): string {
    kind + "(" + Decimal(n) + ")"
  }

  /** `out = TYPE(in1, in2, ...)`. */
  function GateLine(output: nat, gateType: string, inputs: seq<nat>): string {
    Decimal(output) + " = " + gateType + "(" + BenchParse.Join(Decimals(inputs)) + ")"
  }

  lemma DecimalIsName(n: nat)
    ensures BenchParse.IsName(Decimal(n))
  {
    var d := Decimal(n);
    forall i | 0 <= i < |d|
      ensures !IsJavaSpace(d[i]) && d[i] !in {'=', '(', ')', ',', '#'}
    {
      assert IsDigit(d[i]);
    }
  }

  lemma {:induction false} DigitsOfAppend(a: string, b: string)
    ensures DigitsOf(a + b) == DigitsOf(a) + DigitsOf(b)
  {
    if a != [] {
      assert (a + b)[0] == a[0] && (a + b)[1..] == a[1..] + b;
      DigitsOfAppend(a[1..], b);
    } else {
      assert a + b == b;
    }
  }

  lemma {:induction false} DigitsOfDigits(s: string)
    requires forall i :: 0 <= i < |s| ==> IsDigit(s[i])
    ensures DigitsOf(s) == s
  {
    if s != [] {
      DigitsOfDigits(s[1..]);
    }
  }

  lemma {:induction false} DigitsOfNone(s: string)
    requires forall i :: 0 <= i < |s| ==> !IsDigit(s[i])
    ensures DigitsOf(s) == []
  {
    if s != [] {
      DigitsOfNone(s[1..]);
    }
  }

  /** A declaration line reads back the number it was written with. */
  lemma DeclLineRoundTrip(n: nat)
    ensures ParseLine(DeclLine("INPUT", n)) == Ok(InputDecl(n))
    ensures ParseLine(DeclLine("OUTPUT", n)) == Ok(OutputDecl(n))
  {
    DeclDigits("INPUT", n);
    DeclDigits("OUTPUT", n);
    var si := DeclLine("INPUT", n);
    var so := DeclLine("OUTPUT", n);
    assert si[..5] == "INPUT";
    assert so[..6] == "OUTPUT";
    assert so[0] == 'O';
  }

  /** A keyword without digits, then `(n)`: the line is its own trim and its digits are those of `n`. */
  lemma DeclDigits(kind: string, n: nat)
    requires kind != [] && !IsJavaSpace(kind[0]) && forall i :: 0 <= i < |kind| ==> !IsDigit(kind[i])
    ensures var s := DeclLine(kind, n); Trim(s) == s && DeclId(s) == Ok(n)
  {
    var d := Decimal(n);
    var s := DeclLine(kind, n);
    ParseIntOfDecimal(n);
    DigitsOfDigits(d);
    DigitsOfNone(kind + "(");
    DigitsOfNone(")");
    DigitsOfAppend(kind + "(", d);
    DigitsOfAppend(kind + "(" + d, ")");
    assert s == kind + "(" + d + ")";
    assert DigitsOf(s) == d;
    assert s[0] == kind[0] && s[|s| - 1] == ')';
    TrimOfUnpadded(s);
  }

  /** `TYPE(inside)` splits on the parentheses into the type and `inside`. */
  lemma SplitAtParentheses(gateType: string, inside: string)
    requires BenchParse.IsName(gateType) && inside != [] && '(' !in inside && ')' !in inside
    ensures Split(gateType + "(" + inside + ")", {'(', ')'}) == [gateType, inside]
  {
    ParenPieces(gateType, inside);
    var parts: seq<string> := [gateType, inside, []];
    var kept: seq<string> := [gateType, inside];
    assert parts[..|parts| - 1] == kept;
    assert DropTrailingEmpty(kept) == kept;
  }

  lemma ParenPieces(gateType: string, inside: string)
    requires BenchParse.IsName(gateType) && '(' !in inside && ')' !in inside
    ensures var d := gateType + "(" + inside + ")";
      FirstOf(d, {'(', ')'}) >= 0 && SplitAll(d, {'(', ')'}) == [gateType, inside, []]
  {
    var seps := {'(', ')'};
    assert forall i :: 0 <= i < |gateType| ==> gateType[i] !in seps;
    assert forall i :: 0 <= i < |inside| ==> inside[i] !in seps;
    SplitAtTwo(gateType, '(', inside, ')', seps);
    assert gateType + "(" + inside + ")" == gateType + ['('] + (inside + [')'] + []);
  }

  /** Two separators, the second at the end: two pieces and an empty third. */
  lemma SplitAtTwo(a: string, c1: char, b: string, c2: char, seps: set<char>)
    requires c1 in seps && c2 in seps
    requires forall i :: 0 <= i < |a| ==> a[i] !in seps
    requires forall i :: 0 <= i < |b| ==> b[i] !in seps
    ensures FirstOf(a + [c1] + (b + [c2] + []), seps) >= 0
    ensures SplitAll(a + [c1] + (b + [c2] + []), seps) == [a, b, []]
  {
    SplitAllAppend(b, c2, [], seps);
    FirstOfNone(b, seps);
    FirstOfNone([], seps);
    SplitAllAppend(a, c1, b + [c2] + [], seps);
    FirstOfNone(a, seps);
    FirstOfFinds(a + [c1] + (b + [c2] + []), |a|, seps);
  }

  lemma {:induction false} NumbersOfDecimals(pieces: seq<string>, ns: seq<nat>)
    requires |pieces| == |ns| && forall i :: 0 <= i < |ns| ==> Trim(pieces[i]) == Decimal(ns[i])
    ensures Numbers(pieces) == Ok(ns)
  {
    if ns != [] {
      NumbersOfDecimals(pieces[..|pieces| - 1], ns[..|ns| - 1]);
      ParseIntOfDecimal(ns[|ns| - 1]);
      assert ns == ns[..|ns| - 1] + [ns[|ns| - 1]];
    }
  }

  /** A line that starts with a digit and ends unpadded is a gate line. */
  lemma ParseLineOfGate(s: string)
    requires s != [] && IsDigit(s[0]) && !IsJavaSpace(s[|s| - 1])
    ensures ParseLine(s) == ParseGate(s)
  {
    TrimOfUnpadded(s);
    assert !StartsWith(s, "#") && !StartsWith(s, "INPUT") && !StartsWith(s, "OUTPUT");
  }

  /** `n = def`: the number `n`, then the definition. */
  lemma ParseGateOfSides(output: nat, def: string)
    requires def != [] && '=' !in def && !IsJavaSpace(def[0]) && !IsJavaSpace(def[|def| - 1])
    ensures var s := Decimal(output) + " = " + def;
      Split(s, {'='}) == [Decimal(output) + [' '], [' '] + def] && ParseGate(s) == GateDef(output, def)
  {
    var o := Decimal(output);
    DecimalIsName(output);
    BenchParse.SplitAtEquals(o, def);
    BenchParse.NameIsTrimmed(o);
    ParseIntOfDecimal(output);
    TrimOfPadded(def);
  }

  /** The names of the inputs, joined: not empty, unpadded, free of '=', '(' and ')'. */
  lemma DecimalsJoined(inputs: seq<nat>)
    requires |inputs| >= 1
    ensures var names := Decimals(inputs); var j := BenchParse.Join(names);
      (forall i :: 0 <= i < |names| ==> BenchParse.IsName(names[i])) &&
      j != [] && !IsJavaSpace(j[0]) && !IsJavaSpace(j[|j| - 1]) && '(' !in j && ')' !in j && '=' !in j
  {
    var names := Decimals(inputs);
    forall i | 0 <= i < |names|
      ensures BenchParse.IsName(names[i])
    {
      DecimalIsName(inputs[i]);
    }
    BenchParse.JoinShape(names);
  }

  /** `TYPE(in1, in2, ...)` with at least one input reads back as that type and those inputs. */
  lemma GateDefRoundTrip(output: nat, gateType: string, inputs: seq<nat>)
    requires BenchParse.IsName(gateType) && |inputs| >= 1
    ensures GateDef(output, gateType + "(" + BenchParse.Join(Decimals(inputs)) + ")") == Ok(GateDecl(output, gateType, inputs))
  {
    var names := Decimals(inputs);
    var inside := BenchParse.Join(names);
    DecimalsJoined(inputs);
    SplitAtParentheses(gateType, inside);
    BenchParse.NameIsTrimmed(gateType);
    BenchParse.SplitOfJoin(names);
    var pieces := Split(inside, {','});
    assert forall i :: 0 <= i < |pieces| ==> Trim(pieces[i]) == BenchParse.TrimAll(pieces)[i];
    NumbersOfDecimals(pieces, inputs);
  }

  /** A gate line written with at least one input reads back as the gate it describes. */
  lemma GateLineRoundTrip(output: nat, gateType: string, inputs: seq<nat>)
    requires BenchParse.IsName(gateType) && |inputs| >= 1
    ensures ParseLine(GateLine(output, gateType, inputs)) == Ok(GateDecl(output, gateType, inputs))
  {
    var inside := BenchParse.Join(Decimals(inputs));
    DecimalsJoined(inputs);
    var d := gateType + "(" + inside + ")";
    var s := GateLine(output, gateType, inputs);
    assert s == Decimal(output) + " = " + d;
    assert d[0] == gateType[0] && d[|d| - 1] == ')';
    ParseGateOfSides(output, d);
    GateDefRoundTrip(output, gateType, inputs);
    assert IsDigit(Decimal(output)[0]);
    ParseLineOfGate(s);
  }

  /** Text after a second '=' is ignored, where the string-keyed parser rejects the line. */
  lemma ExtraEqualsIsIgnored(output: nat, gateType: string, inputs: seq<nat>, rest: string)
    requires BenchParse.IsName(gateType) && |inputs| >= 1
    requires rest != [] && '=' !in rest && !IsJavaSpace(rest[|rest| - 1])
    ensures ParseLine(GateLine(output, gateType, inputs) + "=" + rest) == Ok(GateDecl(output, gateType, inputs))
  {
    var o := Decimal(output);
    var inside := BenchParse.Join(Decimals(inputs));
    DecimalsJoined(inputs);
    var d := gateType + "(" + inside + ")";
    var s := GateLine(output, gateType, inputs) + "=" + rest;
    assert s == (o + " ") + "=" + (" " + d) + "=" + rest;
    assert d[0] == gateType[0] && d[|d| - 1] == ')';
    ParseGateOfSides(output, d);
    BenchParse.SplitAtTwoEquals(o + " ", " " + d, rest);
    GateDefRoundTrip(output, gateType, inputs);
    DecimalIsName(output);
    assert IsDigit(o[0]) && s[0] == o[0] && s[|s| - 1] == rest[|rest| - 1];
    ParseLineOfGate(s);
  }

  /** A gate with empty parentheses has no second piece after splitting on them: index out of bounds. */
  lemma EmptyParenthesesAreOutOfBounds(output: nat, gateType: string)
    requires BenchParse.IsName(gateType)
    ensures ParseLine(Decimal(output) + " = " + gateType + "()") == Err(IndexOutOfBounds)
  {
    var o := Decimal(output);
    var d := gateType + "()";
    var s := o + " = " + d;
    assert s == o + " = " + gateType + "()";
    assert d[0] == gateType[0] && d[|d| - 1] == ')';
    ParseGateOfSides(output, d);
    EmptyParentheses(gateType, output);
    DecimalIsName(output);
    assert IsDigit(o[0]) && s[0] == o[0] && s[|s| - 1] == ')';
    ParseLineOfGate(s);
  }

  lemma EmptyParentheses(gateType: string, output: int)
    requires BenchParse.IsName(gateType)
    ensures Split(gateType + "()", {'(', ')'}) == [gateType]
    ensures GateDef(output, gateType + "()") == Err(IndexOutOfBounds)
  {
    var seps := {'(', ')'};
    assert forall i :: 0 <= i < |gateType| ==> gateType[i] !in seps;
    SplitAtTwo(gateType, '(', [], ')', seps);
    assert gateType + "()" == gateType + ['('] + ([] + [')'] + []);
    var parts: seq<string> := [gateType, [], []];
    assert parts[..2] == [gateType, []] && parts[..2][..1] == [gateType];
    assert DropTrailingEmpty(parts) == DropTrailingEmpty(parts[..2]);
    assert DropTrailingEmpty(parts[..2]) == DropTrailingEmpty([gateType]);
    assert DropTrailingEmpty([gateType]) == [gateType];
  }
}
