// Typed values: what a stored string means to the chart.
module Values {
  import opened Wrappers
  import opened Trees
  import opened Decimal

  // The float and JSON syntaxes of the Go libraries are parameters.
  datatype Syntax = Syntax(float: string -> Option<string>, json: string -> Option<Tree>)

  datatype ParseError = BadJson

  const MIN_INT64 := -0x8000_0000_0000_0000
  const MAX_INT64 := 0x7FFF_FFFF_FFFF_FFFF

  predicate IsInt64(n: int) {
    MIN_INT64 <= n <= MAX_INT64
  }

  function ParseBool(s: string): Option<bool> {
    if s in {"1", "t", "T", "TRUE", "true", "True"} then Some(true)
    else if s in {"0", "f", "F", "FALSE", "false", "False"} then Some(false)
    else None
  }

  // An optional sign and digits, within 64 bits.
  function ParseInt(s: string): Option<int> {
    var negative, digits := s != "" && s[0] == '-', if s != "" && s[0] in {'+', '-'} then s[1..] else s;
    match ParseDigits(digits)
    case None => None
    case Some(n) =>
      var signed: int := if negative then 0 - n else n;
      if IsInt64(signed) then Some(signed) else None
  }

  function RemoveQuotations(s: string): string {
    var t := if s != "" && s[0] == '"' then s[1..] else s;
    if t != "" && t[|t| - 1] == '"' then t[..|t| - 1] else t
  }

  function ParseString(syntax: Syntax, s: string): Result<Tree, ParseError> {
    if ParseBool(s).Some? then Ok(Leaf(Bool(ParseBool(s).value)))
    else if ParseInt(s).Some? then Ok(Leaf(Int(ParseInt(s).value)))
    else if syntax.float(s).Some? then Ok(Leaf(Float(syntax.float(s).value)))
    else if s != "" && s[0] in {'[', '{'} then
      match syntax.json(s)
      case Some(t) => Ok(t)
      case None => Err(BadJson)
    else Ok(Leaf(Str(RemoveQuotations(s))))
  }

  // ---- Round trips ----------------------------------------------------------------

  function PrintBool(b: bool): string {
    if b then "true" else "false"
  }

  function PrintInt(n: int): string {
    if n < 0 then "-" + Digits(-n) else Digits(n)
  }

  function Quote(s: string): string {
    "\"" + s + "\""
  }

  lemma BoolRoundTrip(syntax: Syntax, b: bool)
    ensures ParseString(syntax, PrintBool(b)) == Ok(Leaf(Bool(b)))
  {
  }

  // A quoted string comes back as it was, whatever it spells, as no float starts with a
  // quotation mark.
  lemma QuoteRoundTrip(syntax: Syntax, s: string)
    requires syntax.float(Quote(s)) == None
    ensures ParseString(syntax, Quote(s)) == Ok(Leaf(Str(s)))
  {
    var q := Quote(s);
    assert q[0] == '"' && q[1..] == s + "\"" && (s + "\"")[..|s|] == s;
    assert ParseBool(q) == None;
    assert q[0] in q && !IsDigit(q[0]);
  }

  lemma ParseIntOfPrint(n: int)
    ensures ParseInt(PrintInt(n)) == if IsInt64(n) then Some(n) else None
  {
    if n < 0 {
      DigitsRoundTrip(-n);
      assert PrintInt(n)[1..] == Digits(-n);
    } else {
      DigitsRoundTrip(n);
      assert IsDigit(PrintInt(n)[0]);
    }
  }

  // A printed integer that reads as a boolean is 0 or 1.
  lemma PrintedBools(n: int)
    ensures ParseBool(PrintInt(n)) == if n == 1 then Some(true) else if n == 0 then Some(false) else None
  {
    var s := PrintInt(n);
    if n < 0 {
      assert s[0] == '-';
    } else {
      assert IsDigit(s[0]);
      DigitsRoundTrip(n);
      assert s == "1" ==> n == 1 by { assert Digits(1) == "1"; DigitsRoundTrip(1); }
      assert s == "0" ==> n == 0;
    }
  }

  // Integers come back as integers exactly when they fit 64 bits and are not 0 or 1, which
  // come back as booleans.
  lemma IntRoundTrip(syntax: Syntax, n: int)
    ensures ParseString(syntax, PrintInt(n)) == Ok(Leaf(Int(n))) <==> IsInt64(n) && n != 0 && n != 1
    ensures ParseString(syntax, PrintInt(0)) == Ok(Leaf(Bool(false)))
    ensures ParseString(syntax, PrintInt(1)) == Ok(Leaf(Bool(true)))
  {
    ParseIntOfPrint(n);
    PrintedBools(n);
    PrintedBools(0);
    PrintedBools(1);
    var s := PrintInt(n);
    assert s[0] == '-' || IsDigit(s[0]);
  }

  // ---- What each text means ---------------------------------------------------------

  // Twelve texts are booleans, whatever else they might be.
  lemma BooleansAre(syntax: Syntax, s: string)
    requires s != "" && s[0] in {'[', '{'} ==> forall b :: syntax.json(s) != Some(Leaf(Bool(b)))
    ensures ParseString(syntax, s) == Ok(Leaf(Bool(true))) <==> s in {"1", "t", "T", "TRUE", "true", "True"}
    ensures ParseString(syntax, s) == Ok(Leaf(Bool(false))) <==> s in {"0", "f", "F", "FALSE", "false", "False"}
  {
  }

  // Digits with or without a sign are an integer when they fit 64 bits,
  lemma SignedDigits(digits: string)
    requires ParseDigits(digits).Some?
    ensures var n: int := ParseDigits(digits).value;
            && ParseInt(digits) == (if n < 0x8000_0000_0000_0000 then Some(n) else None)
            && ParseInt("+" + digits) == (if n < 0x8000_0000_0000_0000 then Some(n) else None)
            && ParseInt("-" + digits) == (if n <= 0x8000_0000_0000_0000 then Some(-n) else None)
  {
    assert digits[0] in digits && IsDigit(digits[0]);
    assert ("+" + digits)[1..] == digits && ("-" + digits)[1..] == digits;
    hide ParseDigits;
  }

  // and nothing else is one.
  lemma OnlySignedDigits(s: string)
    requires ParseInt(s).Some?
    ensures exists digits :: ParseDigits(digits).Some? && (s == digits || s == "+" + digits || s == "-" + digits)
  {
    var digits := if s[0] in {'+', '-'} then s[1..] else s;
    assert s == [s[0]] + s[1..];
    assert ParseDigits(digits).Some?;
  }

  // An integer that is no boolean is read as one, and a float that is neither as a float.
  lemma NumbersAre(syntax: Syntax, s: string)
    requires s !in {"1", "t", "T", "TRUE", "true", "True", "0", "f", "F", "FALSE", "false", "False"}
    ensures ParseInt(s).Some? ==> ParseString(syntax, s) == Ok(Leaf(Int(ParseInt(s).value)))
    ensures ParseInt(s) == None && syntax.float(s).Some? ==>
              ParseString(syntax, s) == Ok(Leaf(Float(syntax.float(s).value)))
  {
  }

  // No boolean and no number.
  predicate IsWord(syntax: Syntax, s: string) {
    && s !in {"1", "t", "T", "TRUE", "true", "True", "0", "f", "F", "FALSE", "false", "False"}
    && ParseInt(s) == None && syntax.float(s) == None
  }

  // A text that opens a list or an object is its JSON value, or an error exactly when it has
  // none.
  lemma JsonIs(syntax: Syntax, s: string, rest: string)
    requires IsWord(syntax, s) && (s == "[" + rest || s == "{" + rest)
    ensures syntax.json(s).Some? ==> ParseString(syntax, s) == Ok(syntax.json(s).value)
    ensures syntax.json(s) == None <==> ParseString(syntax, s) == Err(BadJson)
  {
    assert s[0] in {'[', '{'};
  }

  // Any other text is itself, less a quotation mark in front and one behind.
  lemma TextIs(syntax: Syntax, s: string, r: string)
    requires IsWord(syntax, s) && (s == "" || (s[0] != '[' && s[0] != '{'))
    ensures s == "\"" + r + "\"" ==> ParseString(syntax, s) == Ok(Leaf(Str(r)))
    ensures s == "\"" + r && (r == "" || r[|r| - 1] != '"') ==> ParseString(syntax, s) == Ok(Leaf(Str(r)))
    ensures s == r + "\"" && r != "" && r[0] != '"' ==> ParseString(syntax, s) == Ok(Leaf(Str(r)))
    ensures s == "" || (s[0] != '"' && s[|s| - 1] != '"') ==> ParseString(syntax, s) == Ok(Leaf(Str(s)))
  {
    if s == "\"" + r + "\"" {
      assert s[1..] == r + "\"" && (r + "\"")[..|r|] == r;
    } else if s == "\"" + r {
      assert s[1..] == r;
    } else if s == r + "\"" {
      assert s[..|s| - 1] == r;
    }
  }

  // What a user types without quotation marks or brackets.
  predicate IsPlainText(syntax: Syntax, s: string) {
    IsWord(syntax, s) && (s == "" || (s[0] !in {'[', '{', '"'} && s[|s| - 1] != '"'))
  }

  lemma PlainTextIs(syntax: Syntax, s: string)
    requires IsPlainText(syntax, s)
    ensures ParseString(syntax, s) == Ok(Leaf(Str(s)))
  {
    TextIs(syntax, s, "");
  }

  // The name of a branch, for one.
  lemma MainIsPlain(syntax: Syntax)
    requires syntax.float("main") == None
    ensures IsPlainText(syntax, "main")
  {
    assert "main"[0] == 'm' && |"main"| == 4 && 'm' in "main" && !IsDigit('m');
  }
}
