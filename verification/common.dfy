/** Small types shared by every module: optional values, the helpers that read
    them with Go's zero value, and the errors a STACKIT call can return. */
module Common {
  /** A Go pointer to a value: nil or the value. */
  datatype Option<+T> = None | Some(value: T)

  function DerefBool(v: Option<bool>): bool {
    match v
    case None => false
    case Some(b) => b
  }

  function DerefString(v: Option<string>): string {
    match v
    case None => ""
    case Some(s) => s
  }

  function DerefInt(v: Option<int>): int {
    match v
    case None => 0
    case Some(n) => n
  }

  /** spec.existingId / spec.existingClusterName: set and not empty. */
  predicate IsAdopted(existing: Option<string>) {
    existing.Some? && existing.value != ""
  }

  /** The name a resource should have in STACKIT: spec.name, or the name of
      the Kubernetes object when that is empty. */
  function NameOr(specName: string, objectName: string): (name: string)
    ensures objectName != "" ==> name != ""
  {
    if specName != "" then specName else objectName
  }
}

/** The classification of STACKIT errors that steers the reconcilers' branches. */
module StackitErrors {
  /** An error of the generated SDK (status code and response body), or any
      other error; `text` is what Error() prints. Wrapping with %w does not
      change the classification, so wrapped errors are not distinguished. */
  datatype Error = OpenAPI(status: int, body: string, text: string) | Other(text: string)

  const BAD_REQUEST := 400
  const NOT_FOUND := 404
  const CONFLICT := 409

  predicate OccursAt(body: string, needle: string, i: int) {
    0 <= i <= |body| - |needle| && body[i..i + |needle|] == needle
  }

  predicate Contains(body: string, needle: string) {
    exists i | 0 <= i <= |body| :: OccursAt(body, needle, i)
  }

  predicate IsNotFound(e: Error) {
    e.OpenAPI? && e.status == NOT_FOUND
  }

  predicate IsConflict(e: Error) {
    e.OpenAPI? && e.status == CONFLICT
  }

  predicate IsAlreadyExists(e: Error) {
    e.OpenAPI? && e.status == CONFLICT && Contains(e.body, "AlreadyExists")
  }

  predicate IsTransientAuthError(e: Error) {
    && e.OpenAPI? && e.status == BAD_REQUEST
    && Contains(e.body, "invalid_grant") && Contains(e.body, "invalid iat")
  }

  /** A needle is found iff the body can be cut into what comes before it, the
      needle itself and the rest. */
  lemma ContainsIffCut(body: string, needle: string)
    ensures Contains(body, needle) <==> exists before, after :: body == before + needle + after
  {
    if Contains(body, needle) {
      var i :| 0 <= i <= |body| && OccursAt(body, needle, i);
      assert body == body[..i] + needle + body[i + |needle|..];
    }
    forall before, after | body == before + needle + after
      ensures Contains(body, needle)
    {
      assert OccursAt(body, needle, |before|);
    }
  }

  /** What the operator takes an answer for, by its HTTP status and what its body
      says. An error that is no answer of STACKIT is none of these. */
  lemma ErrorsByCodeAndBody(e: Error)
    ensures IsNotFound(e) <==> e.OpenAPI? && e.status == 404
    ensures IsConflict(e) <==> e.OpenAPI? && e.status == 409
    ensures IsAlreadyExists(e) <==>
              e.OpenAPI? && e.status == 409 && exists a, b :: e.body == a + "AlreadyExists" + b
    ensures IsTransientAuthError(e) <==>
              && e.OpenAPI? && e.status == 400
              && (exists a, b :: e.body == a + "invalid_grant" + b)
              && (exists a, b :: e.body == a + "invalid iat" + b)
  {
    if e.OpenAPI? {
      ContainsIffCut(e.body, "AlreadyExists");
      ContainsIffCut(e.body, "invalid_grant");
      ContainsIffCut(e.body, "invalid iat");
    }
  }
}
