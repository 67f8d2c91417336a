/**
 * The tag-query builder: `BlobTagFilterBuilder` accumulates condition fragments of the
 * blob-index tag expression syntax (`"<tag>" <op> '<value>'`, joined by `AND`), and
 * `PackageTagFilter` is the typed facade that adds one equality per package field.
 */
module TagFilter {

  import opened Wrappers
  import opened Text
  import opened Numbers
  import opened Kinds
  import Constants

  // ---------------------------------------------------------------------------
  // Escaping

  /** `text.Replace("'", "''")`: what both `EscapeIdentifier` and `EscapeValue` do. */
  function Escape(s: string): string
    decreases |s|
  {
    if s == [] then []
    else (if s[0] == '\'' then "''" else [s[0]]) + Escape(s[1..])
  }

  /** Text without single quotes is left as it is. */
  lemma {:induction false} EscapeIdentity(s: string)
    requires '\'' !in s
    ensures Escape(s) == s
    decreases |s|
  {
    if s != [] {
      EscapeIdentity(s[1..]);
      assert [s[0]] + s[1..] == s;
    }
  }

  /** Escaping only doubles single quotes: every other character occurs in the result exactly when it occurs in the input. */
  lemma {:induction false} EscapeKeepsOtherChars(s: string, ch: char)
    requires ch != '\''
    ensures ch in Escape(s) <==> ch in s
    decreases |s|
  {
    if s != [] {
      EscapeKeepsOtherChars(s[1..], ch);
      assert s == [s[0]] + s[1..];
    }
  }

  /** Collapses every pair of single quotes back into one. */
  function Unescape(s: string): string
    decreases |s|
  {
    if |s| >= 2 && s[0] == '\'' && s[1] == '\'' then "'" + Unescape(s[2..])
    else if s == [] then []
    else [s[0]] + Unescape(s[1..])
  }

  lemma {:induction false} UnescapeEscape(s: string)
    ensures Unescape(Escape(s)) == s
    decreases |s|
  {
    if s != [] {
      UnescapeEscape(s[1..]);
      var e := Escape(s);
      if s[0] == '\'' {
        assert e == "''" + Escape(s[1..]);
        assert e[2..] == Escape(s[1..]);
      } else {
        assert e == [s[0]] + Escape(s[1..]);
        assert e[1..] == Escape(s[1..]);
      }
    }
  }

  // ---------------------------------------------------------------------------
  // Conditions

  /** The comparison operators of the tag expression syntax. */
  datatype Operator = Eq | Gt | Ge | Lt | Le

  function Symbol(op: Operator): string {
    match op
    case Eq => "="
    case Gt => ">"
    case Ge => ">="
    case Lt => "<"
    case Le => "<="
  }

  /** One comparison of a tag with a value, before it is rendered. */
  datatype Condition = Condition(tag: string, op: Operator, value: string)

  /** The fragment one comparison method appends: `"<tag>" <op> '<value>'`, both parts escaped. */
  function ConditionText(c: Condition): (r: string)
    ensures r != [] && r[0] == '"'
  {
    "\"" + (Escape(c.tag) + ("\"" + (" " + (Symbol(c.op) + (" " + ("'" + (Escape(c.value) + "'")))))))
  }

  /** The fragments of a list of conditions, in order. */
  function Texts(cs: seq<Condition>): (r: seq<string>)
    ensures |r| == |cs|
    ensures forall k | 0 <= k < |cs| :: r[k] == ConditionText(cs[k])
  {
    if cs == [] then [] else [ConditionText(cs[0])] + Texts(cs[1..])
  }

  // A reader for the fragment grammar, used to show that a fragment reads back as the
  // one condition it was made from.

  /** The text before the first `c`, and the text after it. */
  function ReadUntil(s: string, c: char): Option<(string, string)>
    decreases |s|
  {
    if s == [] then None
    else if s[0] == c then Some(([], s[1..]))
    else
      var (before, after) :- ReadUntil(s[1..], c);
      Some(([s[0]] + before, after))
  }

  /** The body of a single-quoted value: `''` stands for `'`, a lone `'` closes it. */
  function ReadQuoted(s: string): Option<(string, string)>
    decreases |s|
  {
    if s == [] then None
    else if s[0] == '\'' then
      if |s| >= 2 && s[1] == '\'' then
        var (value, after) :- ReadQuoted(s[2..]);
        Some(("'" + value, after))
      else Some(([], s[1..]))
    else
      var (value, after) :- ReadQuoted(s[1..]);
      Some(([s[0]] + value, after))
  }

  function ParseOperator(t: string): (r: Option<Operator>)
    ensures r.Some? ==> Symbol(r.value) == t
  {
    if t == "=" then Some(Eq)
    else if t == ">" then Some(Gt)
    else if t == ">=" then Some(Ge)
    else if t == "<" then Some(Lt)
    else if t == "<=" then Some(Le)
    else None
  }

  /** Reads one whole fragment; anything left after the closing quote is refused. */
  function ParseCondition(s: string): Option<Condition> {
    if s == [] || s[0] != '"' then None
    else
      var (tag, afterTag) :- ReadUntil(s[1..], '"');
      var (op, value) :- ParseComparison(afterTag);
      Some(Condition(Unescape(tag), op, value))
  }

  /** What follows the tag: ` <op> '<value>'`. */
  function ParseComparison(s: string): Option<(Operator, string)> {
    if s == [] || s[0] != ' ' then None
    else
      var (opText, afterOp) :- ReadUntil(s[1..], ' ');
      var op :- ParseOperator(opText);
      var value :- ParseValue(afterOp);
      Some((op, value))
  }

  /** A single-quoted value that ends the fragment. */
  function ParseValue(s: string): Option<string> {
    if s == [] || s[0] != '\'' then None
    else
      var (value, rest) :- ReadQuoted(s[1..]);
      if rest != [] then None else Some(value)
  }

  lemma {:induction false} ReadUntilFirst(x: string, c: char, rest: string)
    requires c !in x
    ensures ReadUntil(x + ([c] + rest), c) == Some((x, rest))
    decreases |x|
  {
    var s := x + ([c] + rest);
    if x == [] {
      assert s == [c] + rest;
    } else {
      ReadUntilFirst(x[1..], c, rest);
      assert s[0] == x[0] && s[1..] == x[1..] + ([c] + rest);
      assert [x[0]] + x[1..] == x;
    }
  }

  /** An escaped value followed by its closing quote reads back as the value. */
  lemma {:induction false} ReadQuotedEscape(v: string, rest: string)
    requires rest == [] || rest[0] != '\''
    ensures ReadQuoted(Escape(v) + ("'" + rest)) == Some((v, rest))
    decreases |v|
  {
    var s := Escape(v) + ("'" + rest);
    if v == [] {
      assert s == "'" + rest;
    } else {
      ReadQuotedEscape(v[1..], rest);
      var t := Escape(v[1..]) + ("'" + rest);
      if v[0] == '\'' {
        assert s == "''" + t;
        assert s[2..] == t;
      } else {
        assert s == [v[0]] + t;
        assert s[1..] == t;
      }
      assert [v[0]] + v[1..] == v;
    }
  }

  lemma SymbolReadsBack(op: Operator)
    ensures ' ' !in Symbol(op) && ParseOperator(Symbol(op)) == Some(op)
  {
  }

  lemma ValueReadsBack(v: string)
    ensures ParseValue("'" + (Escape(v) + "'")) == Some(v)
  {
    var s := "'" + (Escape(v) + "'");
    assert s[1..] == Escape(v) + ("'" + []);
    ReadQuotedEscape(v, []);
  }

  lemma ComparisonReadsBack(op: Operator, v: string)
    ensures ParseComparison(" " + (Symbol(op) + (" " + ("'" + (Escape(v) + "'"))))) == Some((op, v))
  {
    var afterOp := "'" + (Escape(v) + "'");
    var s := " " + (Symbol(op) + (" " + afterOp));
    assert s[1..] == Symbol(op) + ([' '] + afterOp);
    SymbolReadsBack(op);
    ReadUntilFirst(Symbol(op), ' ', afterOp);
    ValueReadsBack(v);
  }

  /**
   * Every fragment reads back as the condition it was made from, so a quote in a value
   * can never end the value early. The tag must be free of double quotes, which are
   * not escaped.
   */
  lemma ConditionRoundTrip(c: Condition)
    requires '"' !in c.tag
    ensures ParseCondition(ConditionText(c)) == Some(c)
  {
    var tag := Escape(c.tag);
    var afterTag := " " + (Symbol(c.op) + (" " + ("'" + (Escape(c.value) + "'"))));
    var s := ConditionText(c);
    EscapeKeepsOtherChars(c.tag, '"');
    assert s[1..] == tag + ("\"" + afterTag);
    ReadUntilFirst(tag, '"', afterTag);
    ComparisonReadsBack(c.op, c.value);
    UnescapeEscape(c.tag);
  }

  /** Escaping works character by character, so it distributes over concatenation. */
  lemma {:induction false} EscapeAppend(a: string, b: string)
    ensures Escape(a + b) == Escape(a) + Escape(b)
    decreases |a|
  {
    if a == [] {
      assert a + b == b;
    } else {
      EscapeAppend(a[1..], b);
      assert (a + b)[0] == a[0] && (a + b)[1..] == a[1..] + b;
    }
  }

  /**
   * A double quote inside a tag name is left as it is, so the reader takes it for the
   * end of the tag, and a fragment whose tag continues with anything but a space after
   * that quote does not read back at all.
   */
  lemma DoubleQuoteInTagBreaksFragment(x: string, y: string, op: Operator, v: string)
    requires '"' !in x && y != [] && y[0] != ' ' && y[0] != '\''
    ensures ParseCondition(ConditionText(Condition(x + ("\"" + y), op, v))) == None
  {
    var ex, ey := Escape(x), Escape(y);
    var afterTag := "\"" + (" " + (Symbol(op) + (" " + ("'" + (Escape(v) + "'")))));
    assert Escape(x + ("\"" + y)) == ex + ("\"" + ey) by {
      EscapeAppend(x, "\"" + y);
      EscapeAppend("\"", y);
      assert Escape("\"") == "\"";
    }
    assert ConditionText(Condition(x + ("\"" + y), op, v)) == "\"" + (ex + ("\"" + (ey + afterTag)));
    EscapeKeepsOtherChars(x, '"');
    TagEndsEarly(ex, ey + afterTag);
  }

  lemma TagEndsEarly(tag: string, rest: string)
    requires '"' !in tag && rest != [] && rest[0] != ' '
    ensures ParseCondition("\"" + (tag + ("\"" + rest))) == None
  {
    var s := "\"" + (tag + ("\"" + rest));
    assert s[1..] == tag + ("\"" + rest);
    ReadUntilFirst(tag, '"', rest);
  }

  // ---------------------------------------------------------------------------
  // The condition list

  /** The fragments with an `AND` item between each two consecutive ones. */
  function Interleave(fragments: seq<string>): seq<string> {
    if |fragments| <= 1 then fragments
    else [fragments[0], "AND"] + Interleave(fragments[1..])
  }

  lemma {:induction false} InterleaveSnoc(fragments: seq<string>, f: string)
    ensures Interleave(fragments + [f]) == Interleave(fragments) + (if fragments == [] then [] else ["AND"]) + [f]
    decreases |fragments|
  {
    if |fragments| >= 2 {
      InterleaveSnoc(fragments[1..], f);
      assert (fragments + [f])[1..] == fragments[1..] + [f];
    } else if |fragments| == 1 {
      assert (fragments + [f])[1..] == [f];
    }
  }

  /** With k fragments the list holds 2k-1 items: the fragments at even positions, `AND` at odd ones. */
  lemma {:induction false} InterleaveShape(fragments: seq<string>)
    requires fragments != []
    ensures |Interleave(fragments)| == 2 * |fragments| - 1
    ensures forall k | 0 <= k < |fragments| :: Interleave(fragments)[2 * k] == fragments[k]
    ensures forall k | 0 <= k < |fragments| - 1 :: Interleave(fragments)[2 * k + 1] == "AND"
    decreases |fragments|
  {
    if |fragments| >= 2 {
      var rest := Interleave(fragments[1..]);
      InterleaveShape(fragments[1..]);
      assert Interleave(fragments) == [fragments[0], "AND"] + rest;
      forall k | 1 <= k < |fragments|
        ensures Interleave(fragments)[2 * k] == fragments[k]
      {
        assert Interleave(fragments)[2 * k] == rest[2 * (k - 1)];
      }
      forall k | 1 <= k < |fragments| - 1
        ensures Interleave(fragments)[2 * k + 1] == "AND"
      {
        assert Interleave(fragments)[2 * k + 1] == rest[2 * (k - 1) + 1];
      }
    }
  }

  /** Joining the list with single spaces is joining the fragments with ` AND `. */
  lemma {:induction false} JoinInterleave(fragments: seq<string>)
    ensures JoinWith(Interleave(fragments), " ") == JoinWith(fragments, " AND ")
    decreases |fragments|
  {
    if |fragments| >= 2 {
      JoinInterleave(fragments[1..]);
      var rest := Interleave(fragments[1..]);
      assert |rest| >= 1;
      var items := [fragments[0], "AND"] + rest;
      assert items[1..] == ["AND"] + rest;
      assert (["AND"] + rest)[1..] == rest;
      calc {
        JoinWith(items, " ");
        fragments[0] + " " + JoinWith(["AND"] + rest, " ");
        fragments[0] + " " + ("AND" + " " + JoinWith(rest, " "));
        fragments[0] + " AND " + JoinWith(fragments[1..], " AND ");
      }
    }
  }

  // ---------------------------------------------------------------------------
  // The builders

  /** An append-only list of condition fragments and `AND` items. */
  class BlobTagFilterBuilder {
    var conditions: seq<string>

    constructor ()
      ensures conditions == []
    {
      conditions := [];
    }

    method And()
      modifies this
      ensures conditions == old(conditions) + ["AND"]
    {
      Append("AND");
    }

    /** `String.Join(" ", conditions)`. */
    function Build(): (r: string)
      reads this
      ensures conditions == [] ==> r == []
      ensures |conditions| == 1 ==> r == conditions[0]
    {
      JoinWith(conditions, " ")
    }

    method Equal(tag: string, value: string)
      modifies this
      ensures conditions == old(conditions) + [ConditionText(Condition(tag, Eq, value))]
    {
      Append(ConditionText(Condition(tag, Eq, value)));
    }

    method GreaterThan(tag: string, value: string)
      modifies this
      ensures conditions == old(conditions) + [ConditionText(Condition(tag, Gt, value))]
    {
      Append(ConditionText(Condition(tag, Gt, value)));
    }

    method GreaterThanOrEqual(tag: string, value: string)
      modifies this
      ensures conditions == old(conditions) + [ConditionText(Condition(tag, Ge, value))]
    {
      Append(ConditionText(Condition(tag, Ge, value)));
    }

    method LessThan(tag: string, value: string)
      modifies this
      ensures conditions == old(conditions) + [ConditionText(Condition(tag, Lt, value))]
    {
      Append(ConditionText(Condition(tag, Lt, value)));
    }

    method LessThanOrEqual(tag: string, value: string)
      modifies this
      ensures conditions == old(conditions) + [ConditionText(Condition(tag, Le, value))]
    {
      Append(ConditionText(Condition(tag, Le, value)));
    }

    /** Adds at the end; what was there stays as it was. */
    method Append(condition: string)
      modifies this
      ensures conditions == old(conditions) + [condition]
      ensures conditions[..|old(conditions)|] == old(conditions)
    {
      conditions := conditions + [condition];
    }
  }

  /**
   * A filter on package tags. `predicates` is the abstract value: the conditions added
   * so far, in call order.
   */
  class PackageTagFilter {
    const builder: BlobTagFilterBuilder
    var containsExpression: bool
    ghost var predicates: seq<Condition>

    /** The builder holds the fragments separated by `AND`, and the flag says whether there is any. */
    ghost predicate Valid()
      reads this, builder
    {
      builder.conditions == Interleave(Texts(predicates))
      && containsExpression == (predicates != [])
    }

    constructor ()
      ensures Valid() && fresh(builder)
      ensures predicates == []
    {
      builder := new BlobTagFilterBuilder();
      containsExpression := false;
      predicates := [];
    }

    method WithBuildNumber(buildNumber: uint32)
      requires Valid()
      modifies this, builder
      ensures Valid()
      ensures predicates == old(predicates) + [Condition(Constants.BuildNumberTagName, Eq, ToDecimal(buildNumber as nat))]
    {
      var c := Condition(Constants.BuildNumberTagName, Eq, ToDecimal(buildNumber as nat));
      AddAndIfNeeded();
      builder.Equal(c.tag, c.value);
      Added(c);
    }

    method WithCu(cuNumber: uint32)
      requires Valid()
      modifies this, builder
      ensures Valid()
      ensures predicates == old(predicates) + [Condition(Constants.CuTagName, Eq, ToDecimal(cuNumber as nat))]
    {
      var c := Condition(Constants.CuTagName, Eq, ToDecimal(cuNumber as nat));
      AddAndIfNeeded();
      builder.Equal(c.tag, c.value);
      Added(c);
    }

    method WithGerritId(gerritId: uint32)
      requires Valid()
      modifies this, builder
      ensures Valid()
      ensures predicates == old(predicates) + [Condition(Constants.GerritIdTagName, Eq, ToDecimal(gerritId as nat))]
    {
      var c := Condition(Constants.GerritIdTagName, Eq, ToDecimal(gerritId as nat));
      AddAndIfNeeded();
      builder.Equal(c.tag, c.value);
      Added(c);
    }

    method WithPatchSet(patchSet: uint32)
      requires Valid()
      modifies this, builder
      ensures Valid()
      ensures predicates == old(predicates) + [Condition(Constants.PatchSetTagName, Eq, ToDecimal(patchSet as nat))]
    {
      var c := Condition(Constants.PatchSetTagName, Eq, ToDecimal(patchSet as nat));
      AddAndIfNeeded();
      builder.Equal(c.tag, c.value);
      Added(c);
    }

    method WithType(packageType: PackageType)
      requires Valid()
      modifies this, builder
      ensures Valid()
      ensures predicates == old(predicates) + [Condition(Constants.TypeTagName, Eq, PackageTypeName(packageType))]
    {
      var c := Condition(Constants.TypeTagName, Eq, PackageTypeName(packageType));
      AddAndIfNeeded();
      builder.Equal(c.tag, c.value);
      Added(c);
    }

    method WithUpgradeType(upgradeType: UpgradeType)
      requires Valid()
      modifies this, builder
      ensures Valid()
      ensures predicates == old(predicates) + [Condition(Constants.UpgradeTypeTagName, Eq, UpgradeTypeName(upgradeType))]
    {
      var c := Condition(Constants.UpgradeTypeTagName, Eq, UpgradeTypeName(upgradeType));
      AddAndIfNeeded();
      builder.Equal(c.tag, c.value);
      Added(c);
    }

    method WithVersion(version: string)
      requires Valid()
      modifies this, builder
      ensures Valid()
      ensures predicates == old(predicates) + [Condition(Constants.VersionTagName, Eq, version)]
    {
      var c := Condition(Constants.VersionTagName, Eq, version);
      AddAndIfNeeded();
      builder.Equal(c.tag, c.value);
      Added(c);
    }

    /** The query text: the fragments in call order, joined by ` AND `; empty when nothing was added. */
    function Build(): (r: string)
      reads this, builder
      requires Valid()
      ensures r == JoinWith(Texts(predicates), " AND ")
    {
      JoinInterleave(Texts(predicates));
      builder.Build()
    }

    function IsEmpty(): (r: bool)
      reads this, builder
      requires Valid()
      ensures r <==> predicates == []
    {
      !containsExpression
    }

    /** Puts an `AND` before every fragment but the first. */
    method AddAndIfNeeded()
      requires Valid()
      modifies this, builder
      ensures containsExpression && predicates == old(predicates)
      ensures builder.conditions == old(builder.conditions) + (if old(predicates) == [] then [] else ["AND"])
    {
      if containsExpression {
        builder.And();
      } else {
        containsExpression := true;
      }
    }

    /** Records `c` in the abstract value once its fragment is in the builder. */
    ghost method Added(c: Condition)
      requires containsExpression
      requires builder.conditions == Interleave(Texts(predicates)) + (if predicates == [] then [] else ["AND"]) + [ConditionText(c)]
      modifies this
      ensures Valid() && predicates == old(predicates) + [c]
    {
      InterleaveSnoc(Texts(predicates), ConditionText(c));
      assert Texts(predicates + [c]) == Texts(predicates) + [ConditionText(c)];
      predicates := predicates + [c];
    }
  }

  /** The query is empty exactly when no condition was added. */
  lemma BuildEmptyIffNoPredicates(predicates: seq<Condition>)
    ensures JoinWith(Texts(predicates), " AND ") == [] <==> predicates == []
  {
    if |predicates| >= 2 {
      assert JoinWith(Texts(predicates), " AND ")[0] == '"';
    }
  }

  /** The fragment as it reads when neither part needs escaping. */
  function Plain(c: Condition): string {
    "\"" + (c.tag + ("\"" + (" " + (Symbol(c.op) + (" " + ("'" + (c.value + "'")))))))
  }

  /** Two quote-free conditions render as the two fragments, unescaped, with ` AND ` between them. */
  lemma TwoConditionsText(c1: Condition, c2: Condition)
    requires '\'' !in c1.tag && '\'' !in c1.value && '\'' !in c2.tag && '\'' !in c2.value
    ensures JoinWith(Texts([c1, c2]), " AND ") == Plain(c1) + " AND " + Plain(c2)
  {
    EscapeIdentity(c1.tag);
    EscapeIdentity(c1.value);
    EscapeIdentity(c2.tag);
    EscapeIdentity(c2.value);
    assert Texts([c1, c2]) == [ConditionText(c1), ConditionText(c2)];
  }

  /** The query of a build-number condition followed by a version condition. */
  lemma BuildNumberAndVersionText(build: string, version: string)
    requires AllDigits(build) && '\'' !in version
    ensures JoinWith(Texts([Condition(Constants.BuildNumberTagName, Eq, build), Condition(Constants.VersionTagName, Eq, version)]), " AND ")
         == Plain(Condition(Constants.BuildNumberTagName, Eq, build)) + " AND " + Plain(Condition(Constants.VersionTagName, Eq, version))
  {
    Constants.TagNamesWellFormed();
    assert Constants.TagNames[1] == Constants.BuildNumberTagName && Constants.TagNames[0] == Constants.VersionTagName;
    TwoConditionsText(Condition(Constants.BuildNumberTagName, Eq, build), Condition(Constants.VersionTagName, Eq, version));
  }

  /**
   * `new PackageTagFilter().WithBuildNumber(b).WithVersion(v)` renders the two fragments
   * `"BuildNumber" = '<b>'` and `"Version" = '<v>'` joined by ` AND `; before anything is
   * added it renders nothing.
   */
  method BuildExample(buildNumber: uint32, version: string) returns (empty: string, query: string)
    requires '\'' !in version
    ensures empty == []
    ensures query == Plain(Condition(Constants.BuildNumberTagName, Eq, ToDecimal(buildNumber as nat)))
                     + " AND " + Plain(Condition(Constants.VersionTagName, Eq, version))
  {
    var filter := new PackageTagFilter();
    empty := filter.Build();
    filter.WithBuildNumber(buildNumber);
    filter.WithVersion(version);
    query := filter.Build();
    BuildNumberAndVersionText(ToDecimal(buildNumber as nat), version);
  }
}
