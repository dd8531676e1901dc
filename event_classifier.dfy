/**
 * The event classifier of the theme layer (`format_theme_event_data` in
 * wp-app-kit/app/core/theme-app.js): it turns a raw application event name and
 * its payload into the envelope `{event, type, message, data}` that theme code
 * receives.  The JavaScript string operations it relies on (`indexOf` and
 * `replace` with a string pattern) are modelled here as well.
 */
module EventClassifier {
  import opened Wrappers

  /**
   * The `data` argument of an application event, as far as the classifier
   * looks at it: `null`/`undefined`, or any other value, whose `type` property
   * compares equal (with `==`) to the string `typeTag` when such a string exists.
   */
  datatype Payload =
    | Nullish
    | Value(typeTag: Option<string>)

  /** The envelope handed to theme code; `kind` is the JavaScript `type` field. */
  datatype Envelope = Envelope(event: string, kind: string, message: string, data: Payload)

  /** The TypeError that reading `data.type` raises when `data` is null or undefined. */
  datatype ClassifyError = PropertyOfNullish

  const ErrorPrefix := "error:"
  const InfoPrefix := "info:"
  const NoContentEvent := "info:no-content"
  const AjaxErrorMessage := "Remote connexion to website failed"
  const GenericErrorMessage := "Oops, an error occured..."
  const NoContentMessage := "The application couldn't retrieve any content, please check your internet connexion!"

  /** `p` occurs in `s` starting at position `j`. */
  predicate OccursAt(s: string, p: string, j: nat)
  {
    j + |p| <= |s| && s[j..j + |p|] == p
  }

  /**
   * `s.indexOf(p, from)` for `from <= |s|`: the first position at or after
   * `from` where `p` occurs in `s`, or -1.  (JavaScript clamps a larger
   * `from` to `|s|`; `IndexOf` only starts at 0.)
   */
  function IndexOfFrom(s: string, p: string, from: nat): (r: int)
    decreases |s| - from
    ensures r == -1 || (from <= r && OccursAt(s, p, r))
    ensures r == -1 ==> forall j: nat :: from <= j ==> !OccursAt(s, p, j)
    ensures r != -1 ==> forall j: nat :: from <= j < r ==> !OccursAt(s, p, j)
  {
    if |s| < from + |p| then -1
    else if s[from..from + |p|] == p then from
    else IndexOfFrom(s, p, from + 1)
  }

  /** `s.indexOf(p)`. */
  function IndexOf(s: string, p: string): int
  {
    IndexOfFrom(s, p, 0)
  }

  /** `s.indexOf(p) === 0` holds exactly when `p` is a prefix of `s`. */
  lemma IndexOfZero(s: string, p: string)
    ensures IndexOf(s, p) == 0 <==> p <= s
  {
  }

  /**
   * `s.replace(p, rep)` for a string pattern `p` and a replacement without `$`
   * patterns: the first occurrence of `p` is replaced, nothing else changes.
   */
  function Replace(s: string, p: string, rep: string): string
  {
    var i := IndexOf(s, p);
    if i < 0 then s else s[..i] + rep + s[i + |p|..]
  }

  /** Removing a prefix with `replace` leaves the rest of the string. */
  lemma ReplacePrefix(s: string, p: string)
    requires p <= s
    ensures Replace(s, p, "") == s[|p|..]
  {
  }

  /** No name carries both prefixes. */
  lemma PrefixesExclusive(name: string)
    ensures !(ErrorPrefix <= name && InfoPrefix <= name)
  {
    if ErrorPrefix <= name {
      assert name[0] == 'e';
    }
  }

  /** `format_theme_event_data(event, data)`. */
  function Classify(name: string, data: Payload): (r: Result<Envelope, ClassifyError>)
    ensures r.Failure? <==> ErrorPrefix <= name && data.Nullish?
    ensures r.Success? ==> r.value.data == data
    ensures r.Success? && ErrorPrefix <= name ==>
      r.value == Envelope(name[|ErrorPrefix|..], "error",
                          if data.Value? && data.typeTag == Some("ajax") then AjaxErrorMessage else GenericErrorMessage,
                          data)
    ensures InfoPrefix <= name ==>
      r == Success(Envelope(name[|InfoPrefix|..], "info",
                            if name == NoContentEvent then NoContentMessage else "", data))
    ensures !(ErrorPrefix <= name) && !(InfoPrefix <= name) ==> r == Success(Envelope(name, "", "", data))
  {
    IndexOfZero(name, ErrorPrefix);
    IndexOfZero(name, InfoPrefix);
    PrefixesExclusive(name);
    if IndexOf(name, ErrorPrefix) == 0 then
      ReplacePrefix(name, ErrorPrefix);
      var event := Replace(name, ErrorPrefix, "");
      match data
      case Nullish => Failure(PropertyOfNullish)
      case Value(tag) =>
        Success(Envelope(event, "error", if tag == Some("ajax") then AjaxErrorMessage else GenericErrorMessage, data))
    else if IndexOf(name, InfoPrefix) == 0 then
      ReplacePrefix(name, InfoPrefix);
      var event := Replace(name, InfoPrefix, "");
      Success(Envelope(event, "info", if name == NoContentEvent then NoContentMessage else "", data))
    else
      Success(Envelope(name, "", "", data))
  }

  /** The only values the `type` field takes. */
  predicate IsKnownKind(kind: string)
  {
    kind == "error" || kind == "info" || kind == ""
  }

  /**
   * The envelope keeps the whole event name: a typed envelope's type, a colon
   * and its event give back the raw name; an untyped one carries the raw name.
   */
  lemma ClassifyRoundTrip(name: string, data: Payload)
    requires Classify(name, data).Success?
    ensures IsKnownKind(Classify(name, data).value.kind)
    ensures var env := Classify(name, data).value;
      if env.kind == "" then env.event == name else env.kind + ":" + env.event == name
  {
  }

  /**
   * The refresh error path classifies the bare name "error" (no colon): the
   * result is an untyped envelope, whatever the sync error is.
   */
  lemma BareErrorNameIsUntyped(error: Payload)
    ensures Classify("error", error) == Success(Envelope("error", "", "", error))
  {
    assert |"error"| < |ErrorPrefix|;
    assert "error"[0] != InfoPrefix[0];
  }
}
