/** The fragment of the squirrel SQL builder the provider uses: structured predicates, their
    rendering with `?` placeholders, and a `SELECT * FROM ... WHERE ... ORDER BY ... LIMIT ...` builder. */
module Sql {
  import opened Wrappers
  import opened Text

  /** A positional argument: a string, or an int64 (the coerced unix timestamps). */
  datatype Value = VText(s: string) | VInt(n: int)

  /** String arguments, one per value, in order. */
  function Texts(ss: seq<string>): (vs: seq<Value>)
    ensures |vs| == |ss|
    ensures forall i :: 0 <= i < |ss| ==> vs[i] == VText(ss[i])
  {
    seq(|ss|, i requires 0 <= i < |ss| => VText(ss[i]))
  }

  /** Go's `%v` formatting of an argument. */
  function Sprint(v: Value): string
  {
    match v
    case VText(s) => s
    case VInt(n) => IntToDecimal(n)
  }

  /** The predicates the filter compiler and the pagination strategy emit. */
  datatype Predicate =
    | Eq(column: string, arg: Value)                    // sq.Eq{column: v}
    | Gt(column: string, arg: Value)                    // sq.Gt{column: v}, or `column > ?`
    | Lt(column: string, arg: Value)                    // sq.Lt{column: v}, or `column < ?`
    | Like(column: string, op: string, arg: Value)      // `column LIKE ?` / `column ILIKE ?`
    | Between(column: string, low: Value, high: Value)  // `column BETWEEN ? AND ?`
    | In(column: string, args: seq<Value>)              // sq.Eq{column: slice}
    | JsonExistsLike(column: string, arg: Value)        // element-wise LIKE over json_each
    | JsonExistsIn(column: string, args: seq<Value>)    // element-wise IN over json_each

  /** SQL text with its positional arguments in emission order. */
  datatype Fragment = Fragment(sql: string, args: seq<Value>)

  /** The SQL text and arguments squirrel produces for a predicate. */
  function Render(p: Predicate): Fragment
  {
    match p
    case Eq(c, v) => Fragment(c + " = ?", [v])
    case Gt(c, v) => Fragment(c + " > ?", [v])
    case Lt(c, v) => Fragment(c + " < ?", [v])
    case Like(c, op, v) => Fragment(c + " " + op + " ?", [v])
    case Between(c, lo, hi) => Fragment(c + " BETWEEN ? AND ?", [lo, hi])
    case In(c, vs) =>
      if |vs| == 0 then Fragment("(1=0)", [])
      else Fragment(c + " IN (" + Placeholders(|vs|) + ")", vs)
    case JsonExistsLike(c, v) =>
      Fragment("EXISTS(select 1 from json_each(" + c + ") where value like ?)", [v])
    case JsonExistsIn(c, vs) =>
      Fragment("EXISTS(select 1 from json_each(" + c + ") where value in (" + Placeholders(|vs|) + "))", vs)
  }

  /** The error `makeFilterCond` reports for `between` with fewer than two values. */
  function TooFewValuesError(op: string): string
  {
    "filter operator '" + op + "' requires at least two values"
  }

  /** The error `makeFilterCond` reports for an operator outside the known set. */
  function UnknownOperatorError(name: string, op: string): string
  {
    "unknown operator in filter '" + name + "':" + op
  }

  /** The column text a predicate mentions. */
  function ColumnOf(p: Predicate): string
  {
    p.column
  }

  /** Every `?` of a rendered predicate stands for exactly one of its arguments, provided the
      column expression and the match operator contain no `?` themselves. */
  lemma RenderPlaceholders(p: Predicate)
    requires '?' !in ColumnOf(p)
    requires p.Like? ==> '?' !in p.op
    ensures Count(Render(p).sql, '?') == |Render(p).args|
  {
    var c := ColumnOf(p);
    match p
    case Eq(_, _) =>
      MarkLast(" = ?", " = ");
      MarksAfter(c, " = ?", 1);
    case Gt(_, _) =>
      MarkLast(" > ?", " > ");
      MarksAfter(c, " > ?", 1);
    case Lt(_, _) =>
      MarkLast(" < ?", " < ");
      MarksAfter(c, " < ?", 1);
    case Like(_, op, _) =>
      MarkLast(" ?", " ");
      MarksAfter(c + " " + op, " ?", 1);
    case Between(_, _, _) =>
      BetweenTextMarks();
      MarksAfter(c, " BETWEEN ? AND ?", 2);
    case In(_, vs) =>
      if |vs| == 0 {
        CountAbsent("(1=0)", '?');
      } else {
        InMarks(c, |vs|);
      }
    case JsonExistsLike(_, _) => JsonLikeMarks(c);
    case JsonExistsIn(_, vs) => JsonInMarks(c, |vs|);
  }

  /** A mark-free front adds no marks. */
  lemma MarksAfter(front: string, text: string, n: nat)
    requires '?' !in front && Count(text, '?') == n
    ensures Count(front + text, '?') == n
  {
    CountAbsent(front, '?');
    CountConcat(front, text, '?');
  }

  /** A text that is mark-free but for its final mark has one mark. */
  lemma MarkLast(text: string, front: string)
    requires text == front + "?" && '?' !in front
    ensures Count(text, '?') == 1
  {
    CountAbsent(front, '?');
  }

  lemma BetweenTextMarks()
    ensures Count(" BETWEEN ? AND ?", '?') == 2
  {
    assert " BETWEEN ? AND ?" == " BETWEEN ?" + " AND ?";
    MarkLast(" BETWEEN ?", " BETWEEN ");
    MarkLast(" AND ?", " AND ");
    CountConcat(" BETWEEN ?", " AND ?", '?');
  }

  lemma InMarks(c: string, n: nat)
    requires '?' !in c
    ensures Count(c + " IN (" + Placeholders(n) + ")", '?') == n
  {
    CountAbsent(c, '?');
    CountNoMark(c, " IN (");
    CountConcat(c + " IN (", Placeholders(n), '?');
    CountNoMark(c + " IN (" + Placeholders(n), ")");
  }

  lemma JsonLikeMarks(c: string)
    requires '?' !in c
    ensures Count("EXISTS(select 1 from json_each(" + c + ") where value like ?)", '?') == 1
  {
    JsonEachHasNoMark();
    LikeTailSplits();
    OneMarkAmong("EXISTS(select 1 from json_each(", c, ") where value like ", ")");
  }

  lemma JsonEachHasNoMark()
    ensures '?' !in "EXISTS(select 1 from json_each("
  {
  }

  lemma LikeTailSplits()
    ensures '?' !in ") where value like "
    ensures ") where value like ?)" == ") where value like " + "?" + ")"
  {
  }

  /** Exactly one mark in a text whose other pieces are mark-free. */
  lemma OneMarkAmong(a: string, c: string, b: string, back: string)
    requires '?' !in a && '?' !in c && '?' !in b && '?' !in back
    ensures Count(a + c + (b + "?" + back), '?') == 1
  {
    CountAbsent(a, '?');
    CountNoMark(a, c);
    CountAbsent(b, '?');
    CountAbsent(back, '?');
    assert Count("?", '?') == 1 by { assert "?"[..0] == ""; }
    CountConcat(b, "?", '?');
    CountConcat(b + "?", back, '?');
    CountConcat(a + c, b + "?" + back, '?');
  }

  lemma JsonInMarks(c: string, n: nat)
    requires '?' !in c
    ensures Count("EXISTS(select 1 from json_each(" + c + ") where value in (" + Placeholders(n) + "))", '?') == n
  {
    var a := "EXISTS(select 1 from json_each(";
    var b := ") where value in (";
    CountAbsent(a, '?');
    CountNoMark(a, c);
    CountNoMark(a + c, b);
    CountConcat(a + c + b, Placeholders(n), '?');
    CountNoMark(a + c + b + Placeholders(n), "))");
  }

  /** No mark added by a mark-free `middle`. */
  lemma CountNoMark(front: string, middle: string)
    requires '?' !in middle
    ensures Count(front + middle, '?') == Count(front, '?')
  {
    CountAbsent(middle, '?');
    CountConcat(front, middle, '?');
  }

  /** squirrel's rendering of successive `Where` parts: joined by ` AND `, arguments concatenated. */
  function Conjunction(ps: seq<Predicate>): Fragment
  {
    if |ps| == 0 then Fragment("", [])
    else if |ps| == 1 then Render(ps[0])
    else
      var init := Conjunction(ps[..|ps| - 1]);
      var last := Render(ps[|ps| - 1]);
      Fragment(init.sql + " AND " + last.sql, init.args + last.args)
  }

  /** The arguments of a conjunction are the predicates' arguments, in order. */
  function AllArgs(ps: seq<Predicate>): seq<Value>
  {
    if |ps| == 0 then [] else AllArgs(ps[..|ps| - 1]) + Render(ps[|ps| - 1]).args
  }

  predicate PlaceholderFree(p: Predicate)
  {
    '?' !in ColumnOf(p) && (p.Like? ==> '?' !in p.op)
  }

  lemma {:induction false} ConjunctionPlaceholders(ps: seq<Predicate>)
    requires forall i :: 0 <= i < |ps| ==> PlaceholderFree(ps[i])
    ensures Conjunction(ps).args == AllArgs(ps)
    ensures Count(Conjunction(ps).sql, '?') == |Conjunction(ps).args|
  {
    if |ps| == 1 {
      RenderPlaceholders(ps[0]);
    } else if |ps| > 1 {
      var init := ps[..|ps| - 1];
      ConjunctionPlaceholders(init);
      RenderPlaceholders(ps[|ps| - 1]);
      var a := Conjunction(init).sql;
      CountAbsent(" AND ", '?');
      CountConcat(a, " AND ", '?');
      CountConcat(a + " AND ", Render(ps[|ps| - 1]).sql, '?');
    }
  }

  /** The state of a squirrel `SelectBuilder` for `Select("*")`. */
  datatype Select = Select(from: string, wheres: seq<Predicate>, orderBys: seq<string>, limit: Option<nat>)

  function WhereClause(b: Select): Fragment
  {
    if |b.wheres| == 0 then Fragment("", [])
    else
      var c := Conjunction(b.wheres);
      Fragment(" WHERE " + c.sql, c.args)
  }

  /** Every `?` of the WHERE clause stands for one argument of the statement, when no
      condition holds a `?` of its own. */
  lemma WherePlaceholders(b: Select)
    requires forall i :: 0 <= i < |b.wheres| ==> PlaceholderFree(b.wheres[i])
    ensures Count(WhereClause(b).sql, '?') == |ToSql(b).args|
  {
    if |b.wheres| > 0 {
      ConjunctionPlaceholders(b.wheres);
      CountAbsent(" WHERE ", '?');
      CountConcat(" WHERE ", Conjunction(b.wheres).sql, '?');
    }
  }

  function OrderClause(b: Select): string
  {
    if |b.orderBys| == 0 then "" else " ORDER BY " + Join(b.orderBys, ", ")
  }

  function LimitClause(b: Select): string
  {
    if b.limit.None? then "" else " LIMIT " + NatToDecimal(b.limit.value)
  }

  function Join(parts: seq<string>, sep: string): string
  {
    if |parts| == 0 then ""
    else if |parts| == 1 then parts[0]
    else Join(parts[..|parts| - 1], sep) + sep + parts[|parts| - 1]
  }

  /** Joining `n` single-mark parts with commas, as `strings.Join(parts, ",")` does, gives
      squirrel's placeholder list. */
  lemma {:induction false} JoinMarks(parts: seq<string>)
    requires forall i :: 0 <= i < |parts| ==> parts[i] == "?"
    ensures Join(parts, ",") == Placeholders(|parts|)
  {
    if |parts| > 1 {
      JoinMarks(parts[..|parts| - 1]);
      assert Placeholders(|parts| - 1) + "," + "?" == Placeholders(|parts| - 1) + ",?";
    }
  }

  /** `SelectBuilder.ToSql` with the `?` placeholder format. */
  function ToSql(b: Select): Fragment
  {
    var w := WhereClause(b);
    Fragment("SELECT * FROM " + b.from + w.sql + OrderClause(b) + LimitClause(b), w.args)
  }

  /** Postgres matches case-insensitively with ILIKE; every other driver gets LIKE. */
  function LikeOperator(driver: string): string
  {
    if driver == "postgres" then "ILIKE" else "LIKE"
  }
}
