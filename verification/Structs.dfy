// Structs with tagged fields, written to a map of strings and read back. Empty fields are
// not written.
module Structs {
  import opened Wrappers

  datatype FieldValue = Text(s: string) | Texts(parts: seq<string>) | Other

  datatype Field = Field(tag: string, value: FieldValue)

  type Values = map<string, string>

  // How lists of strings print and parse, as Go's quoting and its JSON library do.
  datatype Lists = Lists(show: seq<string> -> string, parse: string -> Option<seq<string>>)

  datatype CodecError = Unsupported | BadList

  function FieldText(lists: Lists, value: FieldValue): Result<string, CodecError> {
    match value
    case Text(s) => Ok(s)
    case Texts(parts) => Ok(lists.show(parts))
    case Other => Err(Unsupported)
  }

  // ---- Writing ----------------------------------------------------------------------

  function ChartValues(lists: Lists, fields: seq<Field>): Result<Values, CodecError> {
    if fields == [] then Ok(map[])
    else
      var n := |fields| - 1;
      match ChartValues(lists, fields[..n])
      case Err(e) => Err(e)
      case Ok(before) =>
        if fields[n].tag == "" then Ok(before)
        else
          match FieldText(lists, fields[n].value)
          case Err(e) => Err(e)
          case Ok(text) => Ok(if text == "" then before else before[fields[n].tag := text])
  }

  lemma {:induction false} ChartValuesStop(lists: Lists, fields: seq<Field>, n: nat)
    requires n <= |fields| && ChartValues(lists, fields[..n]).Err?
    ensures ChartValues(lists, fields) == ChartValues(lists, fields[..n])
    decreases |fields|
  {
    if n == |fields| {
      assert fields[..n] == fields;
    } else {
      assert fields[..|fields| - 1][..n] == fields[..n];
      ChartValuesStop(lists, fields[..|fields| - 1], n);
    }
  }

  method CreateChartValues(lists: Lists, fields: seq<Field>) returns (r: Result<Values, CodecError>)
    ensures r == ChartValues(lists, fields)
  {
    var chartValues: Values := map[];
    var i := 0;
    while i < |fields|
      invariant 0 <= i <= |fields| && ChartValues(lists, fields[..i]) == Ok(chartValues)
    {
      assert fields[..i + 1][..i] == fields[..i];
      if fields[i].tag != "" {
        var text := FieldText(lists, fields[i].value);
        if text.Err? {
          ChartValuesStop(lists, fields, i + 1);
          return Err(text.error);
        }
        if text.value != "" { chartValues := chartValues[fields[i].tag := text.value]; }
      }
      i := i + 1;
    }
    assert fields[..i] == fields;
    r := Ok(chartValues);
  }

  predicate TagsDistinct(fields: seq<Field>) {
    forall i, j | 0 <= i < j < |fields| :: fields[i].tag != "" ==> fields[i].tag != fields[j].tag
  }

  // Every tag of the struct is written with its field's text, unless that is empty.
  lemma {:induction false} ChartValuesAt(lists: Lists, fields: seq<Field>, i: nat)
    requires TagsDistinct(fields) && ChartValues(lists, fields).Ok? && i < |fields| && fields[i].tag != ""
    ensures FieldText(lists, fields[i].value).Ok?
    ensures var m, text := ChartValues(lists, fields).value, FieldText(lists, fields[i].value).value;
            if text == "" then fields[i].tag !in m else fields[i].tag in m && m[fields[i].tag] == text
    decreases |fields|
  {
    var n := |fields| - 1;
    if i < n {
      ChartValuesAt(lists, fields[..n], i);
    } else {
      ChartValuesTags(lists, fields[..n]);
    }
  }

  lemma {:induction false} ChartValuesTags(lists: Lists, fields: seq<Field>)
    requires ChartValues(lists, fields).Ok?
    ensures forall t | t in ChartValues(lists, fields).value :: exists i :: 0 <= i < |fields| && fields[i].tag == t
    ensures "" !in ChartValues(lists, fields).value
    decreases |fields|
  {
    if fields != [] {
      var n := |fields| - 1;
      ChartValuesTags(lists, fields[..n]);
      forall t | t in ChartValues(lists, fields).value ensures exists i :: 0 <= i < |fields| && fields[i].tag == t {
        if t == fields[n].tag {
        } else {
          var i :| 0 <= i < |fields[..n]| && fields[..n][i].tag == t;
          assert fields[i].tag == t;
        }
      }
    }
  }

  // ---- Reading back -------------------------------------------------------------------

  function At(values: Values, tag: string): string {
    if tag in values then values[tag] else ""
  }

  function ReadField(lists: Lists, f: Field, values: Values): Result<Field, CodecError> {
    if f.tag == "" then Ok(f)
    else
      match f.value
      case Text(_) => Ok(f.(value := Text(At(values, f.tag))))
      case Texts(_) =>
        (match lists.parse(At(values, f.tag))
         case None => Err(BadList)
         case Some(parts) => Ok(f.(value := Texts(parts))))
      case Other => Err(Unsupported)
  }

  // A struct that is passed by reference.
  class Record {
    var fields: seq<Field>

    constructor (fields: seq<Field>)
      ensures this.fields == fields
    {
      this.fields := fields;
    }
  }

  // Sets the tagged fields in turn. The fields before a bad one stay set.
  method InterfaceToStruct(lists: Lists, obj: Record, values: Values) returns (err: Option<CodecError>)
    modifies obj
    ensures |obj.fields| == |old(obj.fields)|
    ensures err == None ==>
              forall i | 0 <= i < |obj.fields| :: ReadField(lists, old(obj.fields)[i], values) == Ok(obj.fields[i])
    ensures err.Some? ==>
              exists n :: 0 <= n < |obj.fields|
                && (forall i | 0 <= i < n :: ReadField(lists, old(obj.fields)[i], values) == Ok(obj.fields[i]))
                && ReadField(lists, old(obj.fields)[n], values) == Err(err.value)
                && obj.fields[n..] == old(obj.fields)[n..]
  {
    var i := 0;
    while i < |obj.fields|
      invariant 0 <= i <= |obj.fields| == |old(obj.fields)|
      invariant forall j | 0 <= j < i :: ReadField(lists, old(obj.fields)[j], values) == Ok(obj.fields[j])
      invariant obj.fields[i..] == old(obj.fields)[i..]
    {
      assert obj.fields[i] == obj.fields[i..][0] == old(obj.fields)[i];
      match ReadField(lists, obj.fields[i], values) {
        case Err(e) => return Some(e);
        case Ok(f) => obj.fields := obj.fields[i := f];
      }
      assert obj.fields[i + 1..] == old(obj.fields)[i..][1..];
      i := i + 1;
    }
    err := None;
  }

  predicate SameShape(a: FieldValue, b: FieldValue) {
    (a.Text? && b.Text?) || (a.Texts? && b.Texts?)
  }

  // A struct written and read back into one of the same shape has the same tagged fields,
  // empty ones included.
  lemma StructRoundTrip(lists: Lists, fields: seq<Field>, shape: seq<Field>, i: nat)
    requires TagsDistinct(fields) && ChartValues(lists, fields).Ok?
    requires |shape| == |fields| && i < |fields| && fields[i].tag != ""
    requires shape[i].tag == fields[i].tag && SameShape(shape[i].value, fields[i].value)
    requires fields[i].value.Texts? ==>
               var text := lists.show(fields[i].value.parts);
               text != "" && lists.parse(text) == Some(fields[i].value.parts)
    ensures ReadField(lists, shape[i], ChartValues(lists, fields).value) == Ok(fields[i])
  {
    ChartValuesAt(lists, fields, i);
  }
}
