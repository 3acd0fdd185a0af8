/** The error-normalisation stage: the outermost boundary that turns a
    panic or an unclassified error into one Internal status and lets status
    errors through untouched. */
module ErrorStage {
  import opened Options
  import opened Grpc
  import opened Jwt

  /** The generic error every unclassified failure becomes. */
  const InternalError: Error := Status(Internal, "Internal server error")

  /** What may leave the server: a response with no error, or a status
      error with a nil response. */
  predicate OnWire(o: Outcome)
  {
    o.Returned? && (o.err.None? || (o.res == Nil && o.err.value.Status?))
  }

  /** The stage applied to the handler's outcome. */
  function Normalize(o: Outcome): (r: Outcome)
    ensures OnWire(r)
    ensures o.Returned? && o.err.None? ==> r == o
    ensures o.Returned? && o.err.Some? && o.err.value.Status? ==> r == Returned(Nil, o.err)
    ensures o.Returned? && o.err.Some? && o.err.value.Plain? ==> r == Returned(Nil, Some(InternalError))
    ensures o.Panicked? ==> r == Returned(Nil, Some(InternalError))
  {
    match o
    case Panicked(_) => Returned(Nil, Some(InternalError))
    case Returned(res, err) =>
      match err
      case None => Returned(res, None)
      case Some(e) => if e.Status? then Returned(Nil, Some(e)) else Returned(Nil, Some(InternalError))
  }

  /** `ErrorMiddleware`: run the handler once on the unchanged context and
      request, then normalise. */
  function ErrorMiddleware(ctx: Context, req: Request, handler: (Context, Request) -> Outcome): Outcome
  {
    Normalize(handler(ctx, req))
  }

  /** Anything already in wire shape passes unchanged. */
  lemma {:induction false} OnWireIsFixed(o: Outcome)
    requires OnWire(o)
    ensures Normalize(o) == o
  {
  }

  /** Normalising twice is normalising once. */
  lemma {:induction false} NormalizeIdempotent(o: Outcome)
    ensures Normalize(Normalize(o)) == Normalize(o)
  {
    OnWireIsFixed(Normalize(o));
  }

  /** A status error keeps its code and message; nothing else gets a code
      other than Internal. */
  lemma {:induction false} CodesPreservedOrInternal(o: Outcome)
    requires Normalize(o).err.Some?
    ensures o.Returned? && o.err.Some? && o.err.value.Status? ==> Normalize(o).err.value == o.err.value
    ensures !(o.Returned? && o.err.Some? && o.err.value.Status?) ==> Normalize(o).err.value == InternalError
  {
  }
}
