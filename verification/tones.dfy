/** The three tones shared by the generation route and the session record. */
module Tones {
  import opened Wrappers

  datatype Tone = Casual | Formal | Poetic

  /** The wire name of a tone, as it appears in request bodies and in the session record. */
  function ToneName(t: Tone): string {
    match t
    case Casual => "casual"
    case Formal => "formal"
    case Poetic => "poetic"
  }

  /**
   * The route's tone guard: a value is accepted exactly when it is present and
   * is one of the three wire names. `None` stands for a missing, falsy or
   * non-string `tone`.
   */
  function ParseTone(s: Option<string>): (r: Option<Tone>)
    ensures r.Some? ==> s == Some(ToneName(r.value))
    ensures r.None? <==> (s.None? || s.value !in {"casual", "formal", "poetic"})
  {
    match s
    case None => None
    case Some(name) =>
      if name == "casual" then Some(Casual)
      else if name == "formal" then Some(Formal)
      else if name == "poetic" then Some(Poetic)
      else None
  }

  /** Every tone survives a trip through its wire name. */
  lemma ParseToneName(t: Tone)
    ensures ParseTone(Some(ToneName(t))) == Some(t)
  {
  }
}
