/**
 * The GameStatus enum and its string conversions (apps/api/src/domain/entities.rs).
 * `ToString` is the `to_string` match; `FromString` is `From<String>`, whose
 * default arm maps every unknown string to WAITING.
 */
module GameStatus {

  datatype Status = WAITING | ACTIVE | PAUSED | FINISHED | CANCELLED

  function ToString(s: Status): string {
    match s
    case WAITING => "WAITING"
    case ACTIVE => "ACTIVE"
    case PAUSED => "PAUSED"
    case FINISHED => "FINISHED"
    case CANCELLED => "CANCELLED"
  }

  function FromString(s: string): Status {
    if s == "ACTIVE" then ACTIVE
    else if s == "PAUSED" then PAUSED
    else if s == "FINISHED" then FINISHED
    else if s == "CANCELLED" then CANCELLED
    else WAITING
  }

  /** Parsing a rendered status gives the status back, for each of the five variants. */
  lemma RoundTrip(s: Status)
    ensures FromString(ToString(s)) == s
  {
    match s
    case WAITING =>
      assert ToString(s) != "ACTIVE" && ToString(s) != "PAUSED" && ToString(s) != "FINISHED" && ToString(s) != "CANCELLED";
    case ACTIVE =>
    case PAUSED =>
      assert ToString(s) != "ACTIVE";
    case FINISHED =>
      assert ToString(s) != "ACTIVE" && ToString(s) != "PAUSED";
    case CANCELLED =>
      assert ToString(s) != "ACTIVE" && ToString(s) != "PAUSED" && ToString(s) != "FINISHED";
  }

  /** Distinct statuses render to distinct strings. */
  lemma ToStringInjective(a: Status, b: Status)
    ensures ToString(a) == ToString(b) ==> a == b
  {
    if ToString(a) == ToString(b) {
      RoundTrip(a);
      RoundTrip(b);
    }
  }

  /** The default arm: any string other than the four named ones (compared case-sensitively) is WAITING. */
  lemma UnknownIsWaiting(s: string)
    requires s != "ACTIVE" && s != "PAUSED" && s != "FINISHED" && s != "CANCELLED"
    ensures FromString(s) == WAITING
  {
  }

  /** FromString yields a non-WAITING status exactly for the four named strings. */
  lemma FromStringNonWaiting(s: string)
    ensures FromString(s) != WAITING <==> s in {"ACTIVE", "PAUSED", "FINISHED", "CANCELLED"}
  {
  }

  /** "WAITING" itself reaches WAITING through the default arm, and so does the lower-case "active". */
  lemma DefaultArmExamples()
    ensures FromString("WAITING") == WAITING
    ensures FromString("active") == WAITING
  {
    assert "WAITING" != "ACTIVE" && "WAITING" != "PAUSED" && "WAITING" != "FINISHED" && "WAITING" != "CANCELLED";
    assert "active"[0] != "ACTIVE"[0];
    assert "active" != "ACTIVE" && "active" != "PAUSED" && "active" != "FINISHED" && "active" != "CANCELLED";
  }
}
