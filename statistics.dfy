/**
 * The debug statistics record (src/utils/Statistics.ts): five own fields in a
 * fixed order, a selective merge from an arbitrary object, and a line-by-line
 * text rendering.
 */
module Statistics {
  import opened Decimal

  /** A JavaScript value as it can reach a statistics field. */
  datatype Value =
    | Undefined
    | Null
    | Bool(b: bool)
    | Num(r: real)
    | Str(s: string)
    | Obj(json: string)  // an object, carried with its JSON text

  /** The own fields of a Statistics object, in declaration order. */
  const Keys: seq<string> := ["turnsVisible", "turnsTotal", "scrollTop", "clientHeight", "scrollHeight"]

  /** The values of the own fields, in the order of `Keys`. */
  type FieldValues = f: seq<Value> | |f| == 5 witness [Null, Null, Null, Null, Null]

  /** The values a new Statistics object holds. */
  const Defaults: FieldValues := [Num(0.0), Num(0.0), Null, Null, Null]

  /** The fields after `update(obj)`: each own key present in `obj` takes `obj`'s value. */
  function Merge(f: FieldValues, obj: map<string, Value>): FieldValues {
    seq(5, i requires 0 <= i < 5 => if Keys[i] in obj then obj[Keys[i]] else f[i])
  }

  /** The fields after `update(obj)` has visited the first `n` keys. */
  function MergePrefix(f: FieldValues, obj: map<string, Value>, n: nat): FieldValues {
    seq(5, i requires 0 <= i < 5 => if i < n && Keys[i] in obj then obj[Keys[i]] else f[i])
  }

  /** Visiting one more key sets that field when `obj` has the key. */
  lemma MergePrefixStep(f: FieldValues, obj: map<string, Value>, n: nat)
    requires n < 5
    ensures Keys[n] in obj ==> MergePrefix(f, obj, n + 1) == MergePrefix(f, obj, n)[n := obj[Keys[n]]]
    ensures Keys[n] !in obj ==> MergePrefix(f, obj, n + 1) == MergePrefix(f, obj, n)
    ensures MergePrefix(f, obj, n)[n] == f[n]
  {
  }

  /** Only the own keys of `obj` matter: any other key is ignored. */
  lemma MergeIgnoresForeignKeys(f: FieldValues, obj: map<string, Value>)
    ensures Merge(f, obj) == Merge(f, map k | k in obj && k in Keys :: obj[k])
  {
    var own := map k | k in obj && k in Keys :: obj[k];
    forall i | 0 <= i < 5
      ensures Merge(f, obj)[i] == Merge(f, own)[i]
    {
      assert Keys[i] in Keys;
    }
  }

  /** A field whose key `obj` lacks keeps its value; one whose key it has takes `obj`'s value. */
  lemma MergeField(f: FieldValues, obj: map<string, Value>, i: nat)
    requires i < 5
    ensures Keys[i] in obj ==> Merge(f, obj)[i] == obj[Keys[i]]
    ensures Keys[i] !in obj ==> Merge(f, obj)[i] == f[i]
  {
  }

  /** Applying the same object twice is the same as applying it once. */
  lemma MergeIdempotent(f: FieldValues, obj: map<string, Value>)
    ensures Merge(Merge(f, obj), obj) == Merge(f, obj)
  {
  }

  /**
   * Two updates in a row equal one update with the spread of both objects
   * (`{...a, ...b}`, where `b` wins on a shared key).
   */
  lemma MergeSequential(f: FieldValues, a: map<string, Value>, b: map<string, Value>)
    ensures Merge(Merge(f, a), b) == Merge(f, a + b)
  {
  }

  /** `String(n)` for a number; a fractional one is rounded as by `toFixed(0)`. */
  function NumberText(r: real): string {
    if r == r.Floor as real then IntText(r.Floor) else ToFixed0(r)
  }

  /** `String(v)`, as a template literal renders it. */
  function Text(v: Value): string {
    match v
    case Undefined => "undefined"
    case Null => "null"
    case Bool(b) => if b then "true" else "false"
    case Num(r) => NumberText(r)
    case Str(s) => s
    case Obj(_) => "[object Object]"
  }

  /** `#format(val)`: numbers by `toFixed(0)`, null as "null", objects as JSON, the rest by `String`. */
  function Format(v: Value): string {
    match v
    case Num(r) => ToFixed0(r)
    case Null => "null"
    case Obj(json) => json
    case _ => Text(v)
  }

  /** For a whole number the field rendering and the first-line rendering agree. */
  lemma FormatOfWholeNumber(n: int)
    ensures Format(Num(n as real)) == Text(Num(n as real)) == IntText(n)
  {
    ToFixedOfWhole(n);
  }

  function FirstLine(f: FieldValues): string {
    "Messages: " + Text(f[0]) + " / " + Text(f[1])
  }

  function FieldLine(f: FieldValues, i: nat): string
    requires i < 5
  {
    Keys[i] + ": " + Format(f[i])
  }

  /** The lines `toString` collects before joining them. */
  function Lines(f: FieldValues): seq<string> {
    [FirstLine(f)] + seq(5, i requires 0 <= i < 5 => FieldLine(f, i))
  }

  /** `lines.join("\n")`. */
  function Join(lines: seq<string>): string {
    if lines == [] then ""
    else if |lines| == 1 then lines[0]
    else lines[0] + "\n" + Join(lines[1..])
  }

  /** `s.split("\n")`. */
  function Split(s: string): (lines: seq<string>)
    ensures |lines| >= 1
  {
    if s == [] then [""]
    else
      var rest := Split(s[1..]);
      if s[0] == '\n' then [""] + rest else [[s[0]] + rest[0]] + rest[1..]
  }

  predicate NoNewline(s: string) {
    forall i :: 0 <= i < |s| ==> s[i] != '\n'
  }

  lemma {:induction false} SplitSingleLine(a: string)
    requires NoNewline(a)
    ensures Split(a) == [a]
  {
    if a != [] {
      SplitSingleLine(a[1..]);
      assert [a[0]] + a[1..] == a;
    }
  }

  lemma {:induction false} SplitAfterLine(a: string, b: string)
    requires NoNewline(a)
    ensures Split(a + "\n" + b) == [a] + Split(b)
  {
    var s := a + "\n" + b;
    if a == [] {
      assert s[1..] == b;
    } else {
      assert s[0] == a[0] && s[1..] == a[1..] + "\n" + b;
      SplitAfterLine(a[1..], b);
      assert [a[0]] + a[1..] == a;
    }
  }

  /** Splitting the joined text at newlines gives back the lines, when no line holds a newline. */
  lemma {:induction false} SplitJoin(lines: seq<string>)
    requires lines != []
    requires forall i :: 0 <= i < |lines| ==> NoNewline(lines[i])
    ensures Split(Join(lines)) == lines
  {
    if |lines| == 1 {
      SplitSingleLine(lines[0]);
    } else {
      SplitAfterLine(lines[0], Join(lines[1..]));
      SplitJoin(lines[1..]);
    }
  }

  /** A value whose renderings hold no newline. */
  predicate SingleLineValue(v: Value) {
    match v
    case Str(s) => NoNewline(s)
    case Obj(json) => NoNewline(json)
    case _ => true
  }

  lemma DigitsHaveNoNewline(s: string)
    requires AllDigits(s)
    ensures NoNewline(s)
  {
    forall i | 0 <= i < |s|
      ensures s[i] != '\n'
    {
      assert IsDigit(s[i]);
    }
  }

  lemma SignedDigitsHaveNoNewline(negative: bool, n: nat)
    ensures NoNewline(if negative then "-" + NatText(n) else NatText(n))
  {
    DigitsHaveNoNewline(NatText(n));
    if negative {
      assert NoNewline("-");
      NoNewlineConcat("-", NatText(n));
    }
  }

  lemma RenderingsHaveNoNewline(v: Value)
    requires SingleLineValue(v)
    ensures NoNewline(Text(v)) && NoNewline(Format(v))
  {
    if v.Num? {
      var r := v.r;
      SignedDigitsHaveNoNewline(r < 0.0, if r < 0.0 then RoundHalfUp(-r) else RoundHalfUp(r));
      SignedDigitsHaveNoNewline(r.Floor < 0, if r.Floor < 0 then -r.Floor else r.Floor);
    }
  }

  lemma NoNewlineConcat(a: string, b: string)
    requires NoNewline(a) && NoNewline(b)
    ensures NoNewline(a + b)
  {
    forall i | 0 <= i < |a + b|
      ensures (a + b)[i] != '\n'
    {
      if i >= |a| {
        assert (a + b)[i] == b[i - |a|];
      }
    }
  }

  lemma KeysHaveNoNewline(i: nat)
    requires i < 5
    ensures NoNewline(Keys[i])
  {
    if i == 0 {
      assert NoNewline("turnsVisible");
    } else if i == 1 {
      assert NoNewline("turnsTotal");
    } else if i == 2 {
      assert NoNewline("scrollTop");
    } else if i == 3 {
      assert NoNewline("clientHeight");
    } else {
      assert NoNewline("scrollHeight");
    }
  }

  lemma FirstLineHasNoNewline(f: FieldValues)
    requires SingleLineValue(f[0]) && SingleLineValue(f[1])
    ensures NoNewline(FirstLine(f))
  {
    RenderingsHaveNoNewline(f[0]);
    RenderingsHaveNoNewline(f[1]);
    assert NoNewline("Messages: ") && NoNewline(" / ");
    NoNewlineConcat("Messages: ", Text(f[0]));
    NoNewlineConcat("Messages: " + Text(f[0]), " / ");
    NoNewlineConcat("Messages: " + Text(f[0]) + " / ", Text(f[1]));
  }

  lemma FieldLineHasNoNewline(f: FieldValues, i: nat)
    requires i < 5 && SingleLineValue(f[i])
    ensures NoNewline(FieldLine(f, i))
  {
    RenderingsHaveNoNewline(f[i]);
    KeysHaveNoNewline(i);
    assert NoNewline(": ");
    NoNewlineConcat(Keys[i], ": ");
    NoNewlineConcat(Keys[i] + ": ", Format(f[i]));
  }

  lemma LinesHaveNoNewline(f: FieldValues)
    requires forall i :: 0 <= i < 5 ==> SingleLineValue(f[i])
    ensures forall j :: 0 <= j < |Lines(f)| ==> NoNewline(Lines(f)[j])
  {
    var ls := Lines(f);
    FirstLineHasNoNewline(f);
    forall j | 0 <= j < |ls|
      ensures NoNewline(ls[j])
    {
      if j > 0 {
        FieldLineHasNoNewline(f, j - 1);
      }
    }
  }

  /**
   * `toString` yields one "Messages: visible / total" line followed by one
   * "key: value" line per own field in declaration order: six lines in all.
   */
  lemma RenderedLines(f: FieldValues)
    requires forall i :: 0 <= i < 5 ==> SingleLineValue(f[i])
    ensures Split(Join(Lines(f))) == Lines(f)
    ensures |Lines(f)| == 1 + |Keys|
    ensures Lines(f)[0] == "Messages: " + Text(f[0]) + " / " + Text(f[1])
    ensures forall i :: 0 <= i < |Keys| ==> Lines(f)[i + 1] == Keys[i] + ": " + Format(f[i])
  {
    LinesHaveNoNewline(f);
    SplitJoin(Lines(f));
  }

  /** The statistics object: its fields are updated in place. */
  class Statistics {
    var turnsVisible: Value
    var turnsTotal: Value
    var scrollTop: Value
    var clientHeight: Value
    var scrollHeight: Value

    /** The own fields in declaration order (`Object.keys(this)`). */
    function Fields(): FieldValues
      reads this
    {
      var f := [turnsVisible, turnsTotal, scrollTop, clientHeight, scrollHeight];
      assert |f| == 5;
      f
    }

    constructor ()
      ensures Fields() == Defaults
    {
      turnsVisible := Num(0.0);
      turnsTotal := Num(0.0);
      scrollTop := Null;
      clientHeight := Null;
      scrollHeight := Null;
    }

    /** `this[Keys[i]] = v`. */
    method SetField(i: nat, v: Value)
      requires i < 5
      modifies this
      ensures Fields() == old(Fields())[i := v]
    {
      if i == 0 {
        turnsVisible := v;
      } else if i == 1 {
        turnsTotal := v;
      } else if i == 2 {
        scrollTop := v;
      } else if i == 3 {
        clientHeight := v;
      } else {
        scrollHeight := v;
      }
    }

    /** `update(obj)`: copies each own key present in `obj` whose value differs. */
    method Update(obj: map<string, Value>)
      modifies this
      ensures Fields() == Merge(old(Fields()), obj)
    {
      for i := 0 to |Keys|
        invariant Fields() == MergePrefix(old(Fields()), obj, i)
      {
        MergePrefixStep(old(Fields()), obj, i);
        var key := Keys[i];
        if key in obj && Fields()[i] != obj[key] {
          SetField(i, obj[key]);
        }
      }
      assert MergePrefix(old(Fields()), obj, |Keys|) == Merge(old(Fields()), obj);
    }

    /** `toString()`: collects the lines and joins them with newlines. */
    method ToString() returns (s: string)
      ensures s == Join(Lines(Fields()))
    {
      var output := [FirstLine(Fields())];
      for i := 0 to |Keys|
        invariant output == Lines(Fields())[..i + 1]
      {
        var formatted := Format(Fields()[i]);
        output := output + [Keys[i] + ": " + formatted];
      }
      assert output == Lines(Fields());
      s := Join(output);
    }
  }
}
