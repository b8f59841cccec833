/** The simplified DAX measure language of the data-modeling engine: the six
    aggregate functions, the evaluator for `FUNC(Table[Column])`, the static
    validator that gates measure creation, and the quick-measure templates. */
module Dax {
  import opened Wrappers
  import opened Text

  /** The keys of the aggregate table, one constructor per function. */
  datatype Aggregate = Sum | Average | Count | Min | Max | DistinctCount

  function Name(a: Aggregate): string {
    match a
    case Sum => "SUM"
    case Average => "AVERAGE"
    case Count => "COUNT"
    case Min => "MIN"
    case Max => "MAX"
    case DistinctCount => "DISTINCTCOUNT"
  }

  /** The aggregate table in its insertion order, which is the order in which
      the evaluator and the validator try the function names. */
  const Aggregates: seq<Aggregate> := [Sum, Average, Count, Min, Max, DistinctCount]

  /** Column vectors keyed by `"Table.Column"`. */
  type ColumnData = map<string, seq<real>>

  /** The two exceptions an aggregate can raise on a present but empty column. */
  datatype EvalError =
    | ZeroDivision   // AVERAGE divides by the length of the column
    | EmptySequence  // MIN and MAX of an empty column

  datatype DaxResult =
    | Value(v: real)
    | Raised(error: EvalError)
    | Unsupported  // anything that is not an aggregate call; see README

  function Total(xs: seq<real>): real {
    if xs == [] then 0.0 else Total(xs[..|xs| - 1]) + xs[|xs| - 1]
  }

  lemma {:induction false} TotalConcat(a: seq<real>, b: seq<real>)
    ensures Total(a + b) == Total(a) + Total(b)
    decreases |b|
  {
    if b == [] {
      assert a + b == a;
    } else {
      assert (a + b)[..|a + b| - 1] == a + b[..|b| - 1];
      TotalConcat(a, b[..|b| - 1]);
    }
  }

  function Smallest(xs: seq<real>): (m: real)
    requires xs != []
    ensures m in xs
    ensures forall x :: x in xs ==> m <= x
  {
    if |xs| == 1 then xs[0]
    else
      var rest := Smallest(xs[1..]);
      assert forall x :: x in xs ==> x == xs[0] || x in xs[1..];
      if xs[0] <= rest then xs[0] else rest
  }

  function Largest(xs: seq<real>): (m: real)
    requires xs != []
    ensures m in xs
    ensures forall x :: x in xs ==> x <= m
  {
    if |xs| == 1 then xs[0]
    else
      var rest := Largest(xs[1..]);
      assert forall x :: x in xs ==> x == xs[0] || x in xs[1..];
      if rest <= xs[0] then xs[0] else rest
  }

  function Distinct(xs: seq<real>): set<real> {
    set x | x in xs
  }

  /** `data.get(key, default)` */
  function Lookup(data: ColumnData, key: string, default: seq<real>): seq<real> {
    if key in data then data[key] else default
  }

  /** One entry of the aggregate table applied to a column key. */
  function Apply(a: Aggregate, key: string, data: ColumnData): (r: DaxResult)
    ensures key !in data ==> r == Value(0.0)
    ensures key in data ==> match a
      case Sum => r == Value(Total(data[key]))
      case Count => r == Value(|data[key]| as real)
      case DistinctCount => r == Value(|Distinct(data[key])| as real)
      case Average =>
        if data[key] == [] then r == Raised(ZeroDivision)
        else r == Value(Total(data[key]) / |data[key]| as real)
      case Min =>
        if data[key] == [] then r == Raised(EmptySequence)
        else r.Value? && r.v in data[key] && forall x :: x in data[key] ==> r.v <= x
      case Max =>
        if data[key] == [] then r == Raised(EmptySequence)
        else r.Value? && r.v in data[key] && forall x :: x in data[key] ==> x <= r.v
  {
    match a
    case Sum => Value(Total(Lookup(data, key, [])))
    case Average =>
      var n := |Lookup(data, key, [1.0])|;
      if n == 0 then Raised(ZeroDivision) else Value(Total(Lookup(data, key, [])) / n as real)
    case Count => Value(|Lookup(data, key, [])| as real)
    case Min =>
      var xs := Lookup(data, key, [0.0]);
      if xs == [] then Raised(EmptySequence) else Value(Smallest(xs))
    case Max =>
      var xs := Lookup(data, key, [0.0]);
      if xs == [] then Raised(EmptySequence) else Value(Largest(xs))
    case DistinctCount => Value(|Distinct(Lookup(data, key, []))| as real)
  }

  /** The first function of `fs` whose name followed by "(" starts `u`. */
  function FirstMatch(u: string, fs: seq<Aggregate>): (r: Option<Aggregate>)
    ensures r.Some? ==> r.value in fs && StartsWith(u, Name(r.value) + "(")
    ensures r.None? <==> forall a :: a in fs ==> !StartsWith(u, Name(a) + "(")
    ensures r.Some? ==> forall i :: 0 <= i < |fs| && fs[i] != r.value ==>
                          (exists j :: 0 <= j < i && fs[j] == r.value) || !StartsWith(u, Name(fs[i]) + "(")
  {
    if fs == [] then None
    else if StartsWith(u, Name(fs[0]) + "(") then Some(fs[0])
    else
      var r := FirstMatch(u, fs[1..]);
      assert forall a :: a in fs ==> a == fs[0] || a in fs[1..];
      assert r.Some? ==> forall i :: 1 <= i < |fs| && fs[i] != r.value ==>
        (exists j :: 0 <= j < i && fs[j] == r.value) || !StartsWith(u, Name(fs[i]) + "(") by {
        if r.Some? {
          forall i | 1 <= i < |fs| && fs[i] != r.value
            ensures (exists j :: 0 <= j < i && fs[j] == r.value) || !StartsWith(u, Name(fs[i]) + "(")
          {
            assert fs[1..][i - 1] == fs[i];
            if exists j :: 0 <= j < i - 1 && fs[1..][j] == r.value {
              var j :| 0 <= j < i - 1 && fs[1..][j] == r.value;
              assert fs[j + 1] == r.value;
            }
          }
        }
      }
      r
  }

  /** `expression[len(FUNC) + 1:-1]`: drops `FUNC(` and the last character. */
  function Inner(e: string, n: nat): string {
    if |e| > n + 1 then e[n + 1..|e| - 1] else []
  }

  /** The lookup key for the argument of an aggregate call: `"T.C"` for
      `T[C]`, the argument itself otherwise. */
  function ColumnKey(inner: string): string {
    if '[' in inner && ']' in inner then
      Before(inner, '[') + "." + RStrip(Before(After(inner, '['), '['), ']')
    else inner
  }

  /** What the evaluator computes for an expression over `data`. */
  function Evaluate(expression: string, data: ColumnData): DaxResult {
    var e := Strip(expression);
    match FirstMatch(Upper(e), Aggregates)
    case None => Unsupported
    case Some(a) => Apply(a, ColumnKey(Inner(e, |Name(a)|)), data)
  }

  /** The evaluator: tries the function names in table order and applies the
      first one that starts the (stripped, upper-cased) expression. */
  method ParseDax(expression: string, data: ColumnData) returns (r: DaxResult)
    ensures r == Evaluate(expression, data)
  {
    var e := Strip(expression);
    var u := Upper(e);
    var i := 0;
    while i < |Aggregates|
      invariant 0 <= i <= |Aggregates|
      invariant FirstMatch(u, Aggregates) == FirstMatch(u, Aggregates[i..])
    {
      var f := Aggregates[i];
      if StartsWith(u, Name(f) + "(") {
        var key := ColumnKey(Inner(e, |Name(f)|));
        r := Apply(f, key, data);
        return;
      }
      assert Aggregates[i..][1..] == Aggregates[i + 1..];
      i := i + 1;
    }
    r := Unsupported;
  }

  /** The call text `f(arg)`. */
  function Call(f: string, arg: string): string {
    f + "(" + arg + ")"
  }

  /** The column reference text `Table[Column]`. */
  function Ref(table: string, column: string): string {
    table + "[" + column + "]"
  }

  /** The call text `FUNC(Table[Column])`. */
  function AggregateCall(f: string, table: string, column: string): string {
    Call(f, Ref(table, column))
  }

  lemma NamesDisagree(a: Aggregate, b: Aggregate, x: string)
    requires a != b
    ensures !StartsWith(Name(a) + "(" + x, Name(b) + "(")
  {
    var s := Name(a) + "(" + x;
    assert s[0] == Name(a)[0] && s[1] == (Name(a) + "(")[1];
  }

  lemma {:induction false} CallMatches(a: Aggregate, x: string)
    ensures FirstMatch(Name(a) + "(" + x, Aggregates) == Some(a)
  {
    var u := Name(a) + "(" + x;
    assert StartsWith(u, Name(a) + "(") by {
      assert u[..|Name(a) + "("|] == Name(a) + "(";
    }
    forall b | b != a ensures !StartsWith(u, Name(b) + "(") {
      NamesDisagree(a, b, x);
    }
  }

  /** Function names are already upper case, with or without the opening
      parenthesis. */
  lemma UpperName(a: Aggregate)
    ensures Upper(Name(a)) == Name(a)
    ensures Upper(Name(a) + "(") == Name(a) + "("
  {
    match a
    case Sum =>
    case Average =>
    case Count =>
    case Min =>
    case Max =>
    case DistinctCount =>
  }

  lemma {:induction false} IndexOfMarker(x: string, c: char, y: string)
    requires c !in x
    ensures IndexOf(x + [c] + y, c) == |x|
  {
    var s := x + [c] + y;
    assert s[|x|] == c;
    assert forall j :: 0 <= j < |x| ==> s[j] == x[j];
  }

  lemma StripCall(f: string, a: Aggregate, rest: string)
    requires Upper(f) == Name(a)
    ensures Strip(f + "(" + rest + ")") == f + "(" + rest + ")"
  {
    var e := f + "(" + rest + ")";
    assert e[0] == f[0];
    assert UpperChar(f[0]) == Name(a)[0];
    assert e[|e| - 1] == ')';
  }

  lemma {:induction false} UpperCall(f: string, a: Aggregate, rest: string)
    requires Upper(f) == Name(a)
    ensures Upper(f + "(" + rest) == Name(a) + "(" + Upper(rest)
  {
    UpperConcat(f + "(", rest);
    UpperConcat(f, "(");
    UpperName(a);
  }

  lemma {:induction false} KeyOfColumnReference(table: string, column: string)
    requires '[' !in table && '[' !in column && ']' !in column
    ensures ColumnKey(table + "[" + column + "]") == table + "." + column
  {
    var inner := table + "[" + column + "]";
    assert inner == table + ['['] + (column + "]");
    IndexOfMarker(table, '[', column + "]");
    assert Before(inner, '[') == table;
    assert After(inner, '[') == column + "]";
    assert '[' !in column + "]";
    assert Before(column + "]", '[') == column + "]";
    assert RStrip(column + "]", ']') == RStrip(column, ']');
  }

  lemma {:induction false} MatchCall(f: string, a: Aggregate, rest: string)
    requires Upper(f) == Name(a)
    ensures FirstMatch(Upper(f + "(" + rest), Aggregates) == Some(a)
  {
    UpperCall(f, a, rest);
    CallMatches(a, Upper(rest));
  }

  lemma InnerCall(f: string, a: Aggregate, inner: string)
    requires Upper(f) == Name(a)
    ensures Inner(f + "(" + inner + ")", |Name(a)|) == inner
  {
    var e := f + "(" + inner + ")";
    assert |f| == |Name(a)|;
    assert e[|f| + 1..|e| - 1] == inner;
  }

  /** The evaluator's three steps (strip, match, key extraction) put together. */
  lemma EvaluateSteps(e: string, a: Aggregate, inner: string, key: string, data: ColumnData)
    requires Strip(e) == e
    requires FirstMatch(Upper(e), Aggregates) == Some(a)
    requires Inner(e, |Name(a)|) == inner
    requires ColumnKey(inner) == key
    ensures Evaluate(e, data) == Apply(a, key, data)
  {
  }

  /** The facts the evaluator's steps establish about `f(T[C])`. */
  lemma {:induction false} CallSteps(f: string, a: Aggregate, table: string, column: string)
    requires Upper(f) == Name(a)
    requires '[' !in table && '[' !in column && ']' !in column
    ensures var e := f + "(" + (table + "[" + column + "]") + ")";
      && Strip(e) == e
      && FirstMatch(Upper(e), Aggregates) == Some(a)
      && Inner(e, |Name(a)|) == table + "[" + column + "]"
      && ColumnKey(table + "[" + column + "]") == table + "." + column
  {
    var inner := table + "[" + column + "]";
    var e := f + "(" + inner + ")";
    assert Strip(e) == e by {
      StripCall(f, a, inner);
    }
    assert FirstMatch(Upper(e), Aggregates) == Some(a) by {
      assert e == f + "(" + (inner + ")");
      MatchCall(f, a, inner + ")");
    }
    assert Inner(e, |Name(a)|) == inner by {
      InnerCall(f, a, inner);
    }
    KeyOfColumnReference(table, column);
  }

  /** Round trip: the evaluator reads `f(T[C])`, with `f` any spelling of a
      function name up to case, as that aggregate over the key `"T.C"`. */
  lemma {:induction false} EvaluateCall(f: string, a: Aggregate, table: string, column: string, data: ColumnData)
    requires Upper(f) == Name(a)
    requires '[' !in table && '[' !in column && ']' !in column
    ensures Evaluate(AggregateCall(f, table, column), data) == Apply(a, table + "." + column, data)
  {
    var inner := table + "[" + column + "]";
    var e := f + "(" + inner + ")";
    CallSteps(f, a, table, column);
    EvaluateSteps(e, a, inner, table + "." + column, data);
  }

  /** The messages the validator can report. */
  datatype Message =
    | UnbalancedParentheses
    | UnbalancedBrackets
    | NoStandardFunction  // the only warning

  datatype Validation = Validation(valid: bool, errors: seq<Message>, warnings: seq<Message>)

  predicate UsesKnownFunction(expression: string) {
    exists a :: a in Aggregates && StartsWith(Upper(expression), Name(a) + "(")
  }

  predicate ParenthesesBalanced(expression: string) {
    Occurrences(expression, '(') == Occurrences(expression, ')')
  }

  predicate BracketsBalanced(expression: string) {
    Occurrences(expression, '[') == Occurrences(expression, ']')
  }

  /** What the validator reports for an expression. */
  function Validate(expression: string): (r: Validation)
    ensures r.valid <==> ParenthesesBalanced(expression) && BracketsBalanced(expression)
    ensures r.valid <==> r.errors == []
    ensures |r.errors| <= 2
    ensures !ParenthesesBalanced(expression) ==> r.errors[0] == UnbalancedParentheses
    ensures !BracketsBalanced(expression) ==> r.errors[|r.errors| - 1] == UnbalancedBrackets
    ensures UnbalancedParentheses in r.errors <==> !ParenthesesBalanced(expression)
    ensures UnbalancedBrackets in r.errors <==> !BracketsBalanced(expression)
    ensures NoStandardFunction !in r.errors
    ensures |r.errors| == (if ParenthesesBalanced(expression) then 0 else 1) + (if BracketsBalanced(expression) then 0 else 1)
    ensures r.warnings == [] || r.warnings == [NoStandardFunction]
    ensures r.warnings != [] <==> !UsesKnownFunction(expression) && '[' !in expression
  {
    var warnings := if !UsesKnownFunction(expression) && '[' !in expression then [NoStandardFunction] else [];
    var parens := if ParenthesesBalanced(expression) then [] else [UnbalancedParentheses];
    var brackets := if BracketsBalanced(expression) then [] else [UnbalancedBrackets];
    Validation(parens + brackets == [], parens + brackets, warnings)
  }

  /** The validator as the Python implementation runs it: a result record updated check by
      check, the warning first and the two balance errors in order. */
  method ValidateDax(expression: string) returns (r: Validation)
    ensures r == Validate(expression)
  {
    r := Validation(true, [], []);
    if !UsesKnownFunction(expression) && '[' !in expression {
      r := r.(warnings := r.warnings + [NoStandardFunction]);
    }
    ghost var v := Validate(expression);
    assert r.warnings == v.warnings;
    if Occurrences(expression, '(') != Occurrences(expression, ')') {
      r := r.(valid := false, errors := r.errors + [UnbalancedParentheses]);
    }
    if Occurrences(expression, '[') != Occurrences(expression, ']') {
      r := r.(valid := false, errors := r.errors + [UnbalancedBrackets]);
    }
    assert r.errors == v.errors;
  }

  /** The quick-measure template names. */
  const QuickMeasureKinds: set<string> :=
    {"total", "media", "contagem", "contagem_distinta", "minimo", "maximo", "variacao_percentual", "acumulado"}

  /** The expression text a quick measure generates, or None for an unknown kind. */
  function QuickMeasure(kind: string, table: string, column: string): (r: Option<string>)
    ensures r.Some? <==> kind in QuickMeasureKinds
  {
    if kind == "total" then Some(AggregateCall("SUM", table, column))
    else if kind == "media" then Some(AggregateCall("AVERAGE", table, column))
    else if kind == "contagem" then Some(AggregateCall("COUNT", table, column))
    else if kind == "contagem_distinta" then Some(AggregateCall("DISTINCTCOUNT", table, column))
    else if kind == "minimo" then Some(AggregateCall("MIN", table, column))
    else if kind == "maximo" then Some(AggregateCall("MAX", table, column))
    else if kind == "variacao_percentual" then Some(Variation(table, column))
    else if kind == "acumulado" then Some(Cumulative(table, column))
    else None
  }

  /** The percentage-change template: the column against `<column>_anterior`. */
  function Variation(table: string, column: string): string {
    var previous := Call("SUM", Ref(table, column + "_anterior"));
    Call("", Call("SUM", Ref(table, column)) + " - " + previous) + " / " + previous
  }

  /** The running-total template: the column summed over all dates up to the
      latest one. */
  function Cumulative(table: string, column: string): string {
    Call("CALCULATE", Call("SUM", Ref(table, column)) + ", " + DateFilter(table))
  }

  function DateFilter(table: string): string {
    Call("FILTER", Call("ALL", table) + ", " + Ref(table, "Data") + " <= " + Call("MAX", Ref(table, "Data")))
  }

  /** The six templates that are a single aggregate call, by kind. */
  const SingleAggregateKinds: map<string, Aggregate> :=
    map["total" := Sum, "media" := Average, "contagem" := Count,
        "contagem_distinta" := DistinctCount, "minimo" := Min, "maximo" := Max]

  /** Text free of the four delimiters the validator counts. */
  predicate Plain(s: string) {
    '(' !in s && ')' !in s && '[' !in s && ']' !in s
  }

  predicate Balanced(s: string) {
    ParenthesesBalanced(s) && BracketsBalanced(s)
  }

  lemma {:induction false} ConcatBalanced(a: string, b: string)
    requires Balanced(a) && Balanced(b)
    ensures Balanced(a + b)
  {
    OccurrencesConcat(a, b, '(');
    OccurrencesConcat(a, b, ')');
    OccurrencesConcat(a, b, '[');
    OccurrencesConcat(a, b, ']');
  }

  lemma {:induction false} OccurrencesOfWrap(f: string, open: char, x: string, close: char, c: char)
    ensures Occurrences(f + [open] + x + [close], c)
         == Occurrences(f, c) + Occurrences([open], c) + Occurrences(x, c) + Occurrences([close], c)
  {
    OccurrencesConcat(f, [open], c);
    OccurrencesConcat(f + [open], x, c);
    OccurrencesConcat(f + [open] + x, [close], c);
  }

  lemma SingleOccurrence(d: char, c: char)
    ensures Occurrences([d], c) == if d == c then 1 else 0
  {
    assert [d][..0] == [];
  }

  /** Wrapping balanced text between an opening and a closing delimiter. */
  lemma {:induction false} WrapBalanced(f: string, open: char, x: string, close: char)
    requires Plain(f) && Balanced(x)
    requires (open == '(' && close == ')') || (open == '[' && close == ']')
    ensures Balanced(f + [open] + x + [close])
  {
    var s := f + [open] + x + [close];
    OccurrencesOfWrap(f, open, x, close, '(');
    OccurrencesOfWrap(f, open, x, close, ')');
    OccurrencesOfWrap(f, open, x, close, '[');
    OccurrencesOfWrap(f, open, x, close, ']');
    SingleOccurrence(open, '(');
    SingleOccurrence(open, ')');
    SingleOccurrence(open, '[');
    SingleOccurrence(open, ']');
    SingleOccurrence(close, '(');
    SingleOccurrence(close, ')');
    SingleOccurrence(close, '[');
    SingleOccurrence(close, ']');
  }

  lemma CallBalanced(f: string, x: string)
    requires Plain(f) && Balanced(x)
    ensures Balanced(Call(f, x))
  {
    WrapBalanced(f, '(', x, ')');
  }

  lemma RefBalanced(table: string, column: string)
    requires Plain(table) && Plain(column)
    ensures Balanced(Ref(table, column))
  {
    WrapBalanced(table, '[', column, ']');
  }

  lemma PlainBalanced(s: string)
    requires Plain(s)
    ensures Balanced(s)
  {
  }

  /** Balanced pieces joined by delimiter-free text stay balanced. */
  lemma {:induction false} JoinBalanced(a: string, sep: string, b: string)
    requires Balanced(a) && Plain(sep) && Balanced(b)
    ensures Balanced(a + sep + b)
  {
    PlainBalanced(sep);
    ConcatBalanced(a, sep);
    ConcatBalanced(a + sep, b);
  }

  lemma SumBalanced(table: string, column: string)
    requires Plain(table) && Plain(column)
    ensures Balanced(Call("SUM", Ref(table, column)))
  {
    RefBalanced(table, column);
    assert Plain("SUM");
    CallBalanced("SUM", Ref(table, column));
  }

  lemma {:induction false} VariationBalanced(table: string, column: string)
    requires Plain(table) && Plain(column)
    ensures Balanced(Variation(table, column))
  {
    var current := Call("SUM", Ref(table, column));
    var previous := Call("SUM", Ref(table, column + "_anterior"));
    SumBalanced(table, column);
    assert Plain(column + "_anterior");
    SumBalanced(table, column + "_anterior");
    assert Plain(" - ") && Plain(" / ") && Plain("");
    JoinBalanced(current, " - ", previous);
    CallBalanced("", current + " - " + previous);
    JoinBalanced(Call("", current + " - " + previous), " / ", previous);
  }

  lemma {:induction false} FilterBalanced(table: string)
    requires Plain(table)
    ensures Balanced(DateFilter(table))
  {
    var dates := Ref(table, "Data");
    var all := Call("ALL", table);
    var max := Call("MAX", dates);
    assert Plain("Data") && Plain("ALL") && Plain("MAX") && Plain("FILTER") && Plain(", ") && Plain(" <= ");
    RefBalanced(table, "Data");
    PlainBalanced(table);
    CallBalanced("ALL", table);
    CallBalanced("MAX", dates);
    JoinBalanced(all, ", ", dates);
    JoinBalanced(all + ", " + dates, " <= ", max);
    CallBalanced("FILTER", all + ", " + dates + " <= " + max);
  }

  lemma {:induction false} CumulativeBalanced(table: string, column: string)
    requires Plain(table) && Plain(column)
    ensures Balanced(Cumulative(table, column))
  {
    var current := Call("SUM", Ref(table, column));
    SumBalanced(table, column);
    FilterBalanced(table);
    assert Plain(", ") && Plain("CALCULATE");
    JoinBalanced(current, ", ", DateFilter(table));
    CallBalanced("CALCULATE", current + ", " + DateFilter(table));
  }

  lemma NamePlain(a: Aggregate)
    ensures Plain(Name(a))
  {
    match a
    case Sum =>
    case Average =>
    case Count =>
    case Min =>
    case Max =>
    case DistinctCount =>
  }

  /** The six single-aggregate kinds are exactly the quick measures that are one
      aggregate call over the named column. */
  lemma SingleTemplate(kind: string, table: string, column: string)
    requires kind in SingleAggregateKinds
    ensures QuickMeasure(kind, table, column) == Some(AggregateCall(Name(SingleAggregateKinds[kind]), table, column))
  {
  }

  lemma {:induction false} SingleBalanced(kind: string, table: string, column: string)
    requires kind in SingleAggregateKinds
    requires Plain(table) && Plain(column)
    ensures QuickMeasure(kind, table, column) == Some(AggregateCall(Name(SingleAggregateKinds[kind]), table, column))
    ensures Balanced(AggregateCall(Name(SingleAggregateKinds[kind]), table, column))
  {
    var a := SingleAggregateKinds[kind];
    SingleTemplate(kind, table, column);
    RefBalanced(table, column);
    NamePlain(a);
    CallBalanced(Name(a), Ref(table, column));
  }

  lemma {:induction false} QuickMeasureBalanced(kind: string, table: string, column: string)
    requires kind in QuickMeasureKinds
    requires Plain(table) && Plain(column)
    ensures Balanced(QuickMeasure(kind, table, column).value)
    ensures '[' in QuickMeasure(kind, table, column).value
  {
    if kind == "variacao_percentual" {
      VariationBalanced(table, column);
    } else if kind == "acumulado" {
      CumulativeBalanced(table, column);
    } else {
      assert kind in SingleAggregateKinds;
      SingleBalanced(kind, table, column);
    }
  }

  /** Every quick measure over delimiter-free names passes the validator
      cleanly: it is valid and draws no warning. */
  lemma {:induction false} QuickMeasureValid(kind: string, table: string, column: string)
    requires kind in QuickMeasureKinds
    requires Plain(table) && Plain(column)
    ensures Validate(QuickMeasure(kind, table, column).value).valid
    ensures Validate(QuickMeasure(kind, table, column).value).warnings == []
  {
    QuickMeasureBalanced(kind, table, column);
  }

  /** The six single-aggregate quick measures evaluate as their aggregate over
      the column they name. */
  lemma {:induction false} QuickMeasureEvaluates(kind: string, table: string, column: string, data: ColumnData)
    requires kind in SingleAggregateKinds
    requires '[' !in table && '[' !in column && ']' !in column
    ensures QuickMeasure(kind, table, column).Some?
    ensures Evaluate(QuickMeasure(kind, table, column).value, data)
         == Apply(SingleAggregateKinds[kind], table + "." + column, data)
  {
    var a := SingleAggregateKinds[kind];
    assert QuickMeasure(kind, table, column) == Some(AggregateCall(Name(a), table, column));
    UpperName(a);
    EvaluateCall(Name(a), a, table, column, data);
  }

  /** No function name followed by "(" starts an upper-cased text whose first
      character begins no name, or which starts with "C" not followed by "O". */
  lemma NoNameStarts(u: string)
    requires |u| >= 2
    requires u[0] !in "SACMD" || (u[0] == 'C' && u[1] != 'O')
    ensures forall a :: a in Aggregates ==> !StartsWith(u, Name(a) + "(")
  {
    forall a | a in Aggregates ensures !StartsWith(u, Name(a) + "(") {
      var n := Name(a) + "(";
      assert n[0] == Name(a)[0] && n[1] == Name(a)[1];
      assert u[0] != n[0] || u[1] != n[1];
    }
  }

  /** An expression that strips to itself and whose upper-cased form starts
      with no function name is one the evaluator does not read. */
  lemma {:induction false} NotAnAggregateCall(e: string, data: ColumnData)
    requires |e| >= 2 && !IsSpace(e[0]) && !IsSpace(e[|e| - 1])
    requires UpperChar(e[0]) !in "SACMD" || (UpperChar(e[0]) == 'C' && UpperChar(e[1]) != 'O')
    ensures Evaluate(e, data) == Unsupported
  {
    assert Strip(e) == e;
    var u := Upper(e);
    assert u[0] == UpperChar(e[0]) && u[1] == UpperChar(e[1]);
    NoNameStarts(u);
  }

  lemma {:induction false} VariationUnsupported(table: string, column: string, data: ColumnData)
    ensures Evaluate(QuickMeasure("variacao_percentual", table, column).value, data) == Unsupported
  {
    var e := Variation(table, column);
    assert QuickMeasure("variacao_percentual", table, column) == Some(e);
    assert e[0] == '(' && e[|e| - 1] == ')';
    NotAnAggregateCall(e, data);
  }

  lemma {:induction false} CumulativeUnsupported(table: string, column: string, data: ColumnData)
    ensures Evaluate(QuickMeasure("acumulado", table, column).value, data) == Unsupported
  {
    var e := Cumulative(table, column);
    assert QuickMeasure("acumulado", table, column) == Some(e);
    assert e[0] == 'C' && e[1] == 'A' && e[|e| - 1] == ')';
    NotAnAggregateCall(e, data);
  }

  /** The two composite quick measures are not single aggregate calls: the
      evaluator does not read them. */
  lemma {:induction false} CompositeQuickMeasureUnsupported(kind: string, table: string, column: string, data: ColumnData)
    requires kind == "variacao_percentual" || kind == "acumulado"
    ensures QuickMeasure(kind, table, column).Some?
    ensures Evaluate(QuickMeasure(kind, table, column).value, data) == Unsupported
  {
    if kind == "variacao_percentual" {
      VariationUnsupported(table, column, data);
    } else {
      CumulativeUnsupported(table, column, data);
    }
  }

  lemma {:induction false} KeyOfTwoReferences(table: string, x: string, column: string)
    requires '[' !in table && '[' !in x && x != [] && x[|x| - 1] != ']'
    ensures ColumnKey(table + "[" + x + "[" + column + "]") == table + "." + x
  {
    var inner := table + "[" + x + "[" + column + "]";
    assert inner == table + ['['] + (x + "[" + column + "]");
    IndexOfMarker(table, '[', x + "[" + column + "]");
    assert Before(inner, '[') == table;
    assert After(inner, '[') == x + "[" + column + "]";
    assert x + "[" + column + "]" == x + ['['] + (column + "]");
    IndexOfMarker(x, '[', column + "]");
    assert Before(x + "[" + column + "]", '[') == x;
  }

  lemma TwoSumsText(table: string, column: string, table2: string, column2: string)
    ensures AggregateCall("SUM", table, column) + " + " + AggregateCall("SUM", table2, column2)
         == "SUM" + "(" + (table + "[" + (column + "]) + SUM(" + table2) + "[" + column2 + "]") + ")"
  {
  }

  lemma {:induction false} EvaluateSumText(table: string, x: string, column2: string, data: ColumnData)
    requires '[' !in table && '[' !in x && x != [] && x[|x| - 1] != ']'
    ensures Evaluate("SUM" + "(" + (table + "[" + x + "[" + column2 + "]") + ")", data) == Apply(Sum, table + "." + x, data)
  {
    var inner := table + "[" + x + "[" + column2 + "]";
    var e := "SUM" + "(" + inner + ")";
    UpperName(Sum);
    StripCall("SUM", Sum, inner);
    assert e == "SUM" + "(" + (inner + ")");
    MatchCall("SUM", Sum, inner + ")");
    InnerCall("SUM", Sum, inner);
    KeyOfTwoReferences(table, x, column2);
    EvaluateSteps(e, Sum, inner, table + "." + x, data);
  }

  /** The sum of two column totals, `SUM(T[C]) + SUM(U[D])`, is read as one
      SUM whose key runs from the first column to the second table: the
      second call is never evaluated. */
  lemma {:induction false} SumOfTwoSums(table: string, column: string, table2: string, column2: string, data: ColumnData)
    requires Plain(table) && Plain(column) && Plain(table2) && table2 != []
    ensures Evaluate(AggregateCall("SUM", table, column) + " + " + AggregateCall("SUM", table2, column2), data)
         == Apply(Sum, table + "." + (column + "]) + SUM(" + table2), data)
  {
    var x := column + "]) + SUM(" + table2;
    assert '[' !in x;
    TwoSumsText(table, column, table2, column2);
    assert x[|x| - 1] == table2[|table2| - 1];
    EvaluateSumText(table, x, column2, data);
  }
}
