/**
  The per-commit filter: an exact author-name match and inclusive bounds on the
  author time, each applied only when it is set.
 */
module CommitFilter {
  import opened Wrappers
  import opened Commits

  /** The filter settings once the date bounds are parsed to seconds since the epoch. */
  datatype Filter = Filter(author: Option<string>, since: Option<int>, until: Option<int>)

  /**
    A date bound as the writer uses it. `parseRfc3339` stands for parsing an
    RFC 3339 date and taking its seconds since the epoch, `None` when the text
    does not parse. An absent bound and a bound that does not parse both give
    `None`, which switches that bound off: a bad date is not an error.
   */
  function ParseBound(bound: Option<string>, parseRfc3339: string -> Option<int>): (seconds: Option<int>)
    ensures seconds.Some? <==> bound.Some? && parseRfc3339(bound.value).Some?
    ensures seconds.Some? ==> seconds.value == parseRfc3339(bound.value).value
  {
    match bound
    case None => None
    case Some(text) => parseRfc3339(text)
  }

  /**
    Whether a commit with this author signature is kept. The body takes the
    three checks one after the other, as the writer's loop does; the contract
    states them as one conjunction of independent conditions.
   */
  predicate Accepts(author: Signature, f: Filter)
    ensures Accepts(author, f) <==>
      && (f.author.None? || author.name == f.author.value)
      && (f.since.None? || f.since.value <= author.seconds)
      && (f.until.None? || author.seconds <= f.until.value)
  {
    if f.author.Some? && author.name != f.author.value then false
    else if f.since.Some? && author.seconds < f.since.value then false
    else if f.until.Some? && author.seconds > f.until.value then false
    else true
  }

  /** A bound that does not parse filters nothing: the filter behaves as if it were absent. */
  lemma UnparsableBoundsIgnored(author: Signature, name: Option<string>,
                                since: Option<string>, until: Option<string>,
                                parseRfc3339: string -> Option<int>)
    requires since.Some? ==> parseRfc3339(since.value).None?
    requires until.Some? ==> parseRfc3339(until.value).None?
    ensures Accepts(author, Filter(name, ParseBound(since, parseRfc3339), ParseBound(until, parseRfc3339)))
            == Accepts(author, Filter(name, None, None))
  {
  }
}
