/** The domain predicate trees a read request filters by: the current form,
    which can also filter by source name, and the legacy form. */
module Predicates {
  import opened Host
  import opened Records

  datatype LogicalOperation = And | Or

  /** A domain predicate: negation, an and/or over sub-predicates, a date
      range, a quantity comparison, or a source-name filter. */
  datatype Predicate =
    | Not(sub: Predicate)
    | Composite(op: LogicalOperation, subs: seq<Predicate>)
    | DateRange(range: OpenDateRange)
    | QuantityComparison(cmp: ComparisonOperator, value: real)
    | SourceName(name: string)

  /** The legacy predicate: the same shapes without the source filter. */
  datatype LegacyPredicate =
    | LegacyNot(sub: LegacyPredicate)
    | LegacyComposite(op: LogicalOperation, subs: seq<LegacyPredicate>)
    | LegacyDateRange(range: OpenDateRange)
    | LegacyQuantityComparison(cmp: ComparisonOperator, value: real)
}
