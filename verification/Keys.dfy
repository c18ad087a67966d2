// Dotted keys of chart values: splitting at dots that no backslash escapes, and the
// options that follow a comma.
module Keys {

  // ---- keySplitHandleEscape ------------------------------------------------------

  predicate Separates(c: char, escape: bool) {
    c == '.' && !escape
  }

  // The runs of characters that do not separate. A backslash escapes the next character.
  function Fields(key: string, escape: bool, run: string): seq<string> {
    if key == "" then
      if run == "" then [] else [run]
    else if Separates(key[0], escape) then
      (if run == "" then [] else [run]) + Fields(key[1..], false, "")
    else
      Fields(key[1..], key[0] == '\\', run + [key[0]])
  }

  function Unescape(s: string): string {
    if s == "" then "" else (if s[0] == '\\' then "" else [s[0]]) + Unescape(s[1..])
  }

  function UnescapeAll(fields: seq<string>): (r: seq<string>)
    ensures |r| == |fields|
    ensures forall i | 0 <= i < |r| :: r[i] == Unescape(fields[i])
  {
    if fields == [] then [] else [Unescape(fields[0])] + UnescapeAll(fields[1..])
  }

  function KeySplit(key: string): seq<string> {
    UnescapeAll(Fields(key, false, ""))
  }

  lemma UnescapeAllSnoc(fields: seq<string>, s: string)
    ensures UnescapeAll(fields + [s]) == UnescapeAll(fields) + [Unescape(s)]
  {
  }

  lemma FieldsStep(key: string, i: nat, escape: bool, run: string)
    requires i < |key|
    ensures Fields(key[i..], escape, run) ==
            if Separates(key[i], escape) then (if run == "" then [] else [run]) + Fields(key[i + 1..], false, "")
            else Fields(key[i + 1..], key[i] == '\\', run + [key[i]])
  {
    assert key[i..][1..] == key[i + 1..];
  }

  // The fields, found with one flag that the separator test sets and clears as it goes.
  method FieldsOf(key: string) returns (fields: seq<string>)
    ensures fields == Fields(key, false, "")
  {
    var escape, run := false, "";
    fields := [];
    var i := 0;
    while i < |key|
      invariant 0 <= i <= |key|
      invariant Fields(key, false, "") == fields + Fields(key[i..], escape, run)
    {
      FieldsStep(key, i, escape, run);
      var separates := key[i] == '.';
      if key[i] == '\\' {
        escape := true;
      } else if escape {
        escape := false;
        separates := false;
      }
      if separates {
        if run != "" { fields := fields + [run]; }
        run := "";
      } else {
        run := run + [key[i]];
      }
      i := i + 1;
    }
    if run != "" { fields := fields + [run]; }
  }

  method KeySplitHandleEscape(key: string) returns (keys: seq<string>)
    ensures keys == KeySplit(key)
  {
    var fields := FieldsOf(key);
    keys := [];
    var j := 0;
    while j < |fields|
      invariant 0 <= j <= |fields| && keys == UnescapeAll(fields[..j])
    {
      UnescapeAllSnoc(fields[..j], fields[j]);
      assert fields[..j + 1] == fields[..j] + [fields[j]];
      var k := RemoveBackslashes(fields[j]);
      keys := keys + [k];
      j := j + 1;
    }
    assert fields[..j] == fields;
  }

  lemma UnescapeStep(s: string, i: nat)
    requires i < |s|
    ensures Unescape(s[i..]) == (if s[i] == '\\' then "" else [s[i]]) + Unescape(s[i + 1..])
  {
    assert s[i..][1..] == s[i + 1..];
  }

  method RemoveBackslashes(s: string) returns (r: string)
    ensures r == Unescape(s)
  {
    r := "";
    var i := 0;
    while i < |s|
      invariant 0 <= i <= |s| && Unescape(s) == r + Unescape(s[i..])
    {
      UnescapeStep(s, i);
      hide Unescape;
      if s[i] != '\\' { r := r + [s[i]]; }
      i := i + 1;
    }
  }

  // ---- When the key has a segment at all ------------------------------------------

  predicate OnlyDots(key: string) {
    forall i | 0 <= i < |key| :: key[i] == '.'
  }

  lemma {:induction false} SomeField(key: string, escape: bool, run: string)
    ensures Fields(key, escape, run) != [] <==> run != "" || !OnlyDots(key) || (escape && key != "")
    decreases |key|
  {
    if key != "" {
      assert OnlyDots(key) <==> key[0] == '.' && OnlyDots(key[1..]) by {
        if key[0] == '.' && OnlyDots(key[1..]) {
          assert forall i | 1 <= i < |key| :: key[i] == key[1..][i - 1];
        }
      }
      if Separates(key[0], escape) {
        SomeField(key[1..], false, "");
      } else {
        SomeField(key[1..], key[0] == '\\', run + [key[0]]);
      }
    }
  }

  // Setting a chart value needs a first segment: there is one exactly when the key has a
  // character other than a dot.
  lemma SplitNotEmpty(key: string)
    ensures KeySplit(key) != [] <==> !OnlyDots(key)
  {
    SomeField(key, false, "");
  }

  // ---- Round trip -------------------------------------------------------------------

  function Escape(segment: string): string {
    if segment == "" then "" else (if segment[0] == '.' then "\\." else [segment[0]]) + Escape(segment[1..])
  }

  function JoinKey(segments: seq<string>): string {
    if segments == [] then ""
    else if |segments| == 1 then Escape(segments[0])
    else Escape(segments[0]) + "." + JoinKey(segments[1..])
  }

  predicate Plain(segment: string) {
    '\\' !in segment
  }

  function DropEmpty(segments: seq<string>): seq<string> {
    if segments == [] then [] else (if segments[0] == "" then [] else [segments[0]]) + DropEmpty(segments[1..])
  }

  lemma UnescapeStart(c: char, rest: string)
    ensures Unescape([c] + rest) == (if c == '\\' then "" else [c]) + Unescape(rest)
  {
    assert ([c] + rest)[1..] == rest;
  }

  lemma {:induction false} UnescapeOfEscape(s: string)
    requires Plain(s)
    ensures Unescape(Escape(s)) == s
  {
    if s != "" {
      var rest := Escape(s[1..]);
      UnescapeOfEscape(s[1..]);
      UnescapeStart(s[0], rest);
      assert s == [s[0]] + s[1..];
      if s[0] == '.' {
        UnescapeStart('\\', "." + rest);
        assert Escape(s) == "\\." + rest;
        assert "\\" + ("." + rest) == "\\." + rest;
      } else {
        assert s[0] in s;
      }
      hide Unescape, Escape;
    }
  }

  lemma {:induction false} UnescapePlain(s: string)
    ensures Plain(Unescape(s))
  {
    if s != "" { UnescapePlain(s[1..]); }
  }

  // An escaped segment is one run, whatever follows.
  lemma {:induction false} FieldsOfEscaped(s: string, rest: string, run: string)
    requires Plain(s)
    ensures Fields(Escape(s) + rest, false, run) == Fields(rest, false, run + Escape(s))
    decreases |s|
  {
    var whole := Escape(s) + rest;
    if s == "" {
      assert whole == rest && run + Escape(s) == run;
    } else if s[0] == '.' {
      assert whole == "\\." + (Escape(s[1..]) + rest);
      assert whole[1..] == "." + (Escape(s[1..]) + rest);
      assert whole[1..][1..] == Escape(s[1..]) + rest;
      FieldsOfEscaped(s[1..], rest, run + "\\" + ".");
      assert run + "\\" + "." + Escape(s[1..]) == run + Escape(s);
    } else {
      assert whole[1..] == Escape(s[1..]) + rest;
      FieldsOfEscaped(s[1..], rest, run + [s[0]]);
      assert run + [s[0]] + Escape(s[1..]) == run + Escape(s);
    }
  }

  lemma EscapeEmpty(s: string)
    ensures Escape(s) == "" <==> s == ""
  {
  }

  lemma FieldsOfDot(rest: string, run: string)
    ensures Fields("." + rest, false, run) == (if run == "" then [] else [run]) + Fields(rest, false, "")
  {
    assert ("." + rest)[1..] == rest;
  }

  lemma JoinStep(segments: seq<string>)
    requires segments != []
    ensures JoinKey(segments) == Escape(segments[0]) + if |segments| == 1 then "" else "." + JoinKey(segments[1..])
    ensures JoinKey([]) == ""
  {
  }

  // The fields of a join, segment by segment.
  lemma FieldsOfJoin(segments: seq<string>)
    requires segments != [] && Plain(segments[0])
    ensures var e := Escape(segments[0]);
            Fields(JoinKey(segments), false, "") ==
            (if e == "" then [] else [e]) + Fields(JoinKey(segments[1..]), false, "")
  {
    var s, rest := segments[0], segments[1..];
    JoinStep(segments);
    assert Fields("", false, Escape(s)) == if Escape(s) == "" then [] else [Escape(s)];
    assert Fields("", false, "") == [];
    hide JoinKey, Escape, Fields, Plain;
    assert "" + Escape(s) == Escape(s);
    if |segments| == 1 {
      FieldsOfEscaped(s, "", "");
    } else {
      FieldsOfEscaped(s, "." + JoinKey(rest), "");
      FieldsOfDot(JoinKey(rest), Escape(s));
    }
  }

  // Joining with dots and splitting again loses the empty segments and nothing else.
  lemma {:induction false} SplitOfJoin(segments: seq<string>)
    requires forall s | s in segments :: Plain(s)
    ensures KeySplit(JoinKey(segments)) == DropEmpty(segments)
    decreases |segments|
  {
    hide Escape, JoinKey, Plain;
    if segments == [] {
      JoinStep([""]);
    } else {
      FieldsOfJoin(segments);
      EscapeEmpty(segments[0]);
      UnescapeOfEscape(segments[0]);
      hide Fields;
      SplitOfJoin(segments[1..]);
    }
  }

  lemma {:induction false} DropEmptyLength(segments: seq<string>)
    ensures |DropEmpty(segments)| <= |segments|
    ensures DropEmpty(segments) == segments <==> "" !in segments
  {
    if segments != [] {
      DropEmptyLength(segments[1..]);
      assert segments == [segments[0]] + segments[1..];
      if segments[0] != "" && DropEmpty(segments) == segments {
        assert DropEmpty(segments)[1..] == DropEmpty(segments[1..]);
      }
    }
  }

  // The splitter gives back exactly the lists of non-empty segments without backslashes.
  lemma KeyRoundTrip(segments: seq<string>)
    ensures KeySplit(JoinKey(segments)) == segments <==> forall s | s in segments :: Plain(s) && s != ""
  {
    DropEmptyLength(segments);
    if forall s | s in segments :: Plain(s) {
      SplitOfJoin(segments);
    } else {
      var i :| 0 <= i < |segments| && !Plain(segments[i]);
      var fields := Fields(JoinKey(segments), false, "");
      if KeySplit(JoinKey(segments)) == segments {
        UnescapePlain(fields[i]);
        assert false;
      }
    }
  }

  // Dots separate, and one behind a backslash does not.
  lemma SplitByName(a: string, b: string, c: string)
    requires forall s | s in {a, b, c} :: s != "" && '.' !in s && '\\' !in s
    ensures KeySplit(a + "." + b + "\\." + c) == [a, b + "." + c]
  {
    var segments := [a, b + "." + c];
    KeyRoundTrip(segments);
    EscapePlain(a);
    EscapePlain(c);
    EscapeDot(b, c);
    JoinStep(segments);
    JoinStep(segments[1..]);
    assert segments[1..] == [b + "." + c];
    assert a + ("." + (b + "\\." + c)) == a + "." + b + "\\." + c;
    hide KeySplit, Escape;
  }

  lemma {:induction false} EscapePlain(s: string)
    requires '.' !in s
    ensures Escape(s) == s
  {
    if s != "" { EscapePlain(s[1..]); }
  }

  lemma {:induction false} EscapeDot(b: string, c: string)
    requires '.' !in b && '.' !in c
    ensures Escape(b + "." + c) == b + "\\." + c
    decreases |b|
  {
    if b == "" {
      assert b + "." + c == "." + c && ("." + c)[1..] == c;
      EscapePlain(c);
    } else {
      assert (b + "." + c)[1..] == b[1..] + "." + c;
      EscapeDot(b[1..], c);
      assert [b[0]] + (b[1..] + "\\." + c) == b + "\\." + c;
    }
  }

  // ---- Options --------------------------------------------------------------------------

  function Parts(s: string, part: string): (r: seq<string>)
    ensures r != []
    decreases |s|
  {
    if s == "" then [part]
    else if s[0] == ',' then [part] + Parts(s[1..], "")
    else Parts(s[1..], part + [s[0]])
  }

  function JoinParts(parts: seq<string>): string
    requires parts != []
  {
    if |parts| == 1 then parts[0] else parts[0] + "," + JoinParts(parts[1..])
  }

  // The one list of comma-free parts that the commas of s separate.
  lemma {:induction false} PartsExact(s: string, part: string)
    requires ',' !in part
    ensures forall p | p in Parts(s, part) :: ',' !in p
    ensures JoinParts(Parts(s, part)) == part + s
    decreases |s|
  {
    if s != "" {
      if s[0] == ',' {
        PartsExact(s[1..], "");
        var r := Parts(s, part);
        assert r[1..] == Parts(s[1..], "");
        assert part + "," + ("" + s[1..]) == part + s;
      } else {
        PartsExact(s[1..], part + [s[0]]);
        assert part + [s[0]] + s[1..] == part + s;
      }
    }
  }

  const OMIT := "omit"

  function KeyName(key: string): string {
    Parts(key, "")[0]
  }

  predicate Omitted(key: string) {
    OMIT in Parts(key, "")[1..]
  }

  // A key is its name, and each option after a comma.
  method ParseKey(key: string) returns (name: string, opts: seq<string>)
    ensures name == KeyName(key) && opts == Parts(key, "")[1..]
    ensures JoinParts([name] + opts) == key && ',' !in name && forall o | o in opts :: ',' !in o
  {
    var parts := Parts(key, "");
    PartsExact(key, "");
    name, opts := parts[0], parts[1..];
    assert [name] + opts == parts && "" + key == key;
  }
}
