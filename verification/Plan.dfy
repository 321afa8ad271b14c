/** The execution plan as the server sees it once table patterns are expanded. */
module Plan {
  import opened Bytes
  import opened Rows

  datatype Relation = Relation(fromTable: string, fromColumn: string, toTable: string, toColumn: string)

  /** An exclude pattern: a compiled regular expression, or one that does not compile. */
  datatype Pattern = Regex(accepts: string -> bool) | Malformed

  /** `selected` is the answer of the root query (WHERE, ORDER BY and LIMIT applied). */
  datatype Aggregate = Aggregate(
    root: string,
    excludeTables: set<string>,
    excludePatterns: seq<Pattern>,
    rootOnly: bool,
    selected: set<Row>)

  datatype Plan = Plan(
    relations: seq<Relation>,
    aggregates: seq<Aggregate>,
    excluded: set<string>,
    ignored: set<string>,
    full: set<string>,
    aggregatesOnly: bool)

  ghost predicate PatternsCompile(a: Aggregate) {
    forall i :: 0 <= i < |a.excludePatterns| ==> a.excludePatterns[i].Regex?
  }

  /** The tables an aggregate excludes, its patterns expanded over `names`. */
  ghost function ExcludeSet(a: Aggregate, names: set<string>): set<string> {
    a.excludeTables +
    set t | t in names &&
            exists i :: 0 <= i < |a.excludePatterns| && a.excludePatterns[i].Regex?
                        && a.excludePatterns[i].accepts(t)
  }

  /** An invalid pattern is an error, never dropped: dropping it would import data the
      user asked to keep out. */
  method ExpandExcludePatterns(a: Aggregate, names: set<string>) returns (r: Option<set<string>>)
    ensures r.Some? <==> PatternsCompile(a)
    ensures r.Some? ==> r.value == ExcludeSet(a, names)
  {
    var exclude := a.excludeTables;
    for i := 0 to |a.excludePatterns|
      invariant forall k :: 0 <= k < i ==> a.excludePatterns[k].Regex?
      invariant exclude == a.excludeTables +
                           set t | t in names && exists k :: 0 <= k < i && a.excludePatterns[k].Regex?
                                                             && a.excludePatterns[k].accepts(t)
    {
      match a.excludePatterns[i]
      case Malformed => return None;
      case Regex(accepts) =>
        exclude := exclude + set t | t in names && accepts(t);
    }
    return Some(exclude);
  }

  /** Tables the traversal may enter by following a relation. */
  predicate Enterable(plan: Plan, importable: set<string>, exclude: set<string>, t: string) {
    t in importable && t !in plan.full && t !in exclude && t !in plan.excluded
  }
}
