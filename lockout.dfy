/**
 * The two time comparisons every layer applies to the persisted state:
 * whether the emergency (layer 1) lockout recorded in the lockout document
 * is still in force, and whether a control plan has expired. Each layer
 * reads the documents in its own way (see the readers in RuleEngine,
 * PlanExecutor and ForecastEngine); all of them decide with these.
 */
module Lockout {
  import opened Json

  /**
   * The time a document field records, as every layer reads it: the field
   * must hold non-empty text that `fromisoformat` accepts, with a UTC
   * offset so that it can be compared with the current time.
   */
  function Deadline(d: map<string, Json>, key: string, p: Parsers): (t: Option<int>)
    ensures t.Some? <==> key in d && d[key].JStr? && d[key].s != "" && p.iso(d[key].s).Some? && p.hasOffset(d[key].s)
    ensures t.Some? ==> p.iso(d[key].s) == t
  {
    if key in d && d[key].JStr? && d[key].s != "" && p.hasOffset(d[key].s) then p.iso(d[key].s) else None
  }

  /**
   * The field holds a time `fromisoformat` accepts but without a UTC
   * offset: comparing it with the offset-aware current time raises
   * TypeError, which none of the layers catches.
   */
  predicate OffsetFree(d: map<string, Json>, key: string, p: Parsers) {
    key in d && d[key].JStr? && d[key].s != "" && p.iso(d[key].s).Some? && !p.hasOffset(d[key].s)
  }

  /** The lockout is in force at `now` iff its deadline lies strictly after `now`. */
  predicate Locked(now: int, until: int) {
    now < until
  }

  /** A plan is expired once `now` is strictly after its `valid_until`. */
  predicate Expired(now: int, validUntil: int) {
    now > validUntil
  }

  /**
   * The command gate's lockout as the executor and the forecast engine
   * read `/api/status`: its `locked_out` flag's truth value, with a failed
   * request, an undecodable body or a body that is not an object counting
   * as unlocked.
   */
  predicate GateLocked(status: Option<Json>) {
    status.Some? && status.value.JObj? && Truthy(FieldOr(status.value.fields, "locked_out", JBool(false)))
  }
}
