/** Values, events and the evaluation interface that the select operator consumes.
    The interpreter that runs compiled expressions is not part of this model: an
    expression is any total function from its evaluation environment to a result. */
module Values {

  /** The part of a structured event value that the operator and its tests need. */
  datatype Value =
    | Null
    | Bool(b: bool)
    | I64(i: int)
    | Str(s: string)
    | Object(fields: map<string, Value>)

  datatype Option<T> = None | Some(value: T)

  /** The error outcomes one event can produce; each aborts only that event. */
  datatype Error =
    | GuardNotBool(got: Value)   // a WHERE or HAVING guard produced a non-boolean
    | EvalError(reason: string)  // an expression (target, group-by, argument, guard) failed
    | AggrError(reason: string)  // an aggregate rejected the arguments given to accumulate

  datatype Result<T> = Ok(value: T) | Err(error: Error)

  type MetaMap = map<string, Value>

  /** A pipeline event; `ingestNs` is the event-time used by tumbling windows. */
  datatype Event = Event(
    id: nat,
    ingestNs: nat,
    value: Value,
    meta: MetaMap,
    isBatch: bool,
    kind: Option<string>)

  /** What an expression sees when it runs: the event context's timestamp, the
      event value, the metadata value, and the values the aggregates in scope
      currently emit (empty where the operator passes no aggregates). */
  datatype Env = Env(ingestNs: nat, event: Value, meta: Value, aggrs: seq<Value>)

  /** A compiled, resolved expression of the query. */
  type Expr = Env -> Result<Value>
}
