/**
 * How the handler turns the text of a failed completion call into an HTTP
 * error: an ordered series of substring tests on that text.
 */
module ErrorMapping {

  /** `sub` starts at position `i` of `s`. */
  ghost predicate OccursAt(s: string, sub: string, i: int)
  {
    0 <= i <= |s| - |sub| && s[i..i + |sub|] == sub
  }

  /** Reference meaning of substring occurrence: some position of `s` starts a copy of `sub`. */
  ghost predicate Occurs(s: string, sub: string)
  {
    exists i :: OccursAt(s, sub, i)
  }

  /**
   * Python's `sub in s` on strings, as a left-to-right search. It answers
   * exactly the occurrence question, in both directions.
   */
  function Contains(s: string, sub: string): (found: bool)
    ensures found <==> Occurs(s, sub)
    decreases |s|
  {
    if |s| < |sub| then false
    else if s[..|sub|] == sub then
      assert OccursAt(s, sub, 0);
      true
    else
      OccursPastHead(s, sub);
      Contains(s[1..], sub)
  }

  /** When `sub` does not start at the head of `s`, it occurs in `s` exactly when it occurs in the rest. */
  lemma OccursPastHead(s: string, sub: string)
    requires |sub| <= |s| && s[..|sub|] != sub
    ensures Occurs(s, sub) <==> Occurs(s[1..], sub)
  {
    if Occurs(s[1..], sub) {
      var i :| OccursAt(s[1..], sub, i);
      assert s[i + 1..i + 1 + |sub|] == s[1..][i..i + |sub|];
      assert OccursAt(s, sub, i + 1);
    }
    if Occurs(s, sub) {
      var i :| OccursAt(s, sub, i);
      assert i != 0;
      assert s[i..i + |sub|] == s[1..][i - 1..i - 1 + |sub|];
      assert OccursAt(s[1..], sub, i - 1);
    }
  }

  /** An occurrence stays an occurrence when text is added on either side. */
  lemma OccursInContext(s: string, sub: string, before: string, after: string)
    requires Occurs(s, sub)
    ensures Occurs(before + s + after, sub)
  {
    var i :| OccursAt(s, sub, i);
    var t := before + s + after;
    assert t[|before| + i..|before| + i + |sub|] == s[i..i + |sub|];
    assert OccursAt(t, sub, |before| + i);
  }

  /** A text lacking one of the characters of `sub` cannot contain `sub`. */
  lemma MissingCharExcludes(s: string, sub: string, k: int)
    requires 0 <= k < |sub| && sub[k] !in s
    ensures !Occurs(s, sub)
  {
  }

  /** The HTTP error the handler raises: a status code and a human-readable detail. */
  datatype HttpError = HttpError(status: int, detail: string)

  const QuotaDetail: string :=
    "Quota OpenAI dépassé ou facturation inactive. Vérifie ton plan/billing OpenAI."
  const KeyDetail: string := "Clé OpenAI invalide."
  const ServerPrefix: string := "Erreur serveur: "

  /** The failure text signals exhausted quota or billing (first test). */
  predicate QuotaMarked(msg: string)
    ensures QuotaMarked(msg) <==> QuotaSignalled(msg)
  {
    Contains(msg, "insufficient_quota") || Contains(msg, "Error code: 429")
  }

  /** The failure text signals a rejected API key (second test). */
  predicate KeyMarked(msg: string)
    ensures KeyMarked(msg) <==> KeySignalled(msg)
  {
    Contains(msg, "invalid_api_key") || Contains(msg, "Error code: 401")
  }

  /** The quota markers, stated by occurrence. */
  ghost predicate QuotaSignalled(msg: string)
  {
    Occurs(msg, "insufficient_quota") || Occurs(msg, "Error code: 429")
  }

  /** The credential markers, stated by occurrence. */
  ghost predicate KeySignalled(msg: string)
  {
    Occurs(msg, "invalid_api_key") || Occurs(msg, "Error code: 401")
  }

  /**
   * Maps every failure text to exactly one HTTP error: quota markers win, then
   * credential markers, and anything else is a server error quoting the text.
   */
  function Classify(msg: string): (e: HttpError)
    ensures e.status == 429 || e.status == 401 || e.status == 500
    ensures e.status == 429 <==> QuotaSignalled(msg)
    ensures e.status == 401 <==> !QuotaSignalled(msg) && KeySignalled(msg)
    ensures e.status == 500 <==> !QuotaSignalled(msg) && !KeySignalled(msg)
    ensures e.status == 429 ==> e.detail == QuotaDetail
    ensures e.status == 401 ==> e.detail == KeyDetail
    ensures e.status == 500 ==> e.detail == ServerPrefix + msg
  {
    if QuotaMarked(msg) then HttpError(429, QuotaDetail)
    else if KeyMarked(msg) then HttpError(401, KeyDetail)
    else HttpError(500, ServerPrefix + msg)
  }

  /** Quota takes precedence: a text carrying both kinds of marker is a 429. */
  lemma QuotaWinsOverKey(msg: string)
    requires Occurs(msg, "insufficient_quota") || Occurs(msg, "Error code: 429")
    requires Occurs(msg, "invalid_api_key") || Occurs(msg, "Error code: 401")
    ensures Classify(msg) == HttpError(429, QuotaDetail)
  {
  }

  /**
   * Adding context around a failure text never lowers its classification: a
   * 429 stays a 429, a 401 becomes a 401 or a 429.
   */
  lemma ClassifyInContext(msg: string, before: string, after: string)
    ensures Classify(msg).status == 429 ==> Classify(before + msg + after).status == 429
    ensures Classify(msg).status == 401 ==> Classify(before + msg + after).status != 500
  {
    var t := before + msg + after;
    forall marker | marker in ["insufficient_quota", "Error code: 429", "invalid_api_key", "Error code: 401"]
      && Occurs(msg, marker)
      ensures Occurs(t, marker)
    {
      OccursInContext(msg, marker, before, after);
    }
  }

  /** The detail of a server error ends with the failure text verbatim. */
  lemma ServerDetailQuotesFailure(msg: string)
    requires Classify(msg).status == 500
    ensures Occurs(Classify(msg).detail, msg)
    ensures Classify(msg).detail[|ServerPrefix|..] == msg
  {
    var d := Classify(msg).detail;
    assert d[|ServerPrefix|..|ServerPrefix| + |msg|] == msg;
    assert OccursAt(d, msg, |ServerPrefix|);
  }

  /** A bare timeout is a server error quoting it. */
  lemma TimeoutIsServerError()
    ensures Classify("timeout") == HttpError(500, "Erreur serveur: timeout")
  {
  }

  /** A failure text carrying the 429 status marker is a 429. */
  lemma QuotaExampleIs429()
    ensures Classify("Error code: 429 - insufficient_quota").status == 429
  {
    assert OccursAt("Error code: 429 - insufficient_quota", "Error code: 429", 0);
  }

  /** A failure text carrying the 401 status marker and the invalid-key marker, and no quota marker, is a 401. */
  lemma KeyExampleIs401()
    ensures Classify("Error code: 401 - invalid_api_key") == HttpError(401, KeyDetail)
  {
    var m := "Error code: 401 - invalid_api_key";
    assert OccursAt(m, "Error code: 401", 0);
    MissingCharExcludes(m, "insufficient_quota", 13);
    MissingCharExcludes(m, "Error code: 429", 13);
  }
}
