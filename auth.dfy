/**
 * Discovery of the authentication scheme (`Http._generate_token`):
 * HTTP Basic is probed first; only when its probe is rejected with an
 * HTTP error status is HTTP Digest probed.
 */
module Auth {
  import opened Wrappers
  import opened Text
  import opened Requests

  datatype AuthMethod = Basic | Digest

  /** The value stored in `_authentication`. */
  function AuthName(m: AuthMethod): string
  {
    match m
    case Basic => "basic"
    case Digest => "digest"
  }

  /** The auth object kept as `_token`: `HTTPBasicAuth` or `HTTPDigestAuth` over the credentials. */
  datatype Credential = Credential(scheme: AuthMethod, user: string, password: string)

  /**
   * The outcome of negotiation: the token or the exception raised, and the
   * schemes probed, in order. The last one probed is what `_authentication` holds.
   */
  datatype Negotiation = Negotiation(token: Result<Credential, Failure>, probes: seq<AuthMethod>)

  /** The command every probe sends. */
  const ProbeCommand: string := "magicBox.cgi?action=getMachineName"

  /** A Digest reply body that signals rejected credentials, whatever its case. */
  predicate Rejects(text: string)
    ensures Rejects(text) <==> Occurs("invalid", Lower(text)) || Occurs("error", Lower(text))
  {
    Contains("invalid", Lower(text)) || Contains("error", Lower(text))
  }

  /**
   * `_generate_token` over the reply to the Basic probe and the reply the
   * Digest probe would get; `digest` is consulted only when Digest is probed.
   */
  function Negotiate(user: string, password: string, basic: Reply, digest: Reply): (n: Negotiation)
    ensures |n.probes| >= 1 && n.probes[0] == Basic
    ensures n.probes == [Basic, Digest] <==> IsHttpError(basic)
    ensures n.probes == [Basic] <==> !IsHttpError(basic)
    ensures n.token.Success? ==> n.token.value == Credential(n.probes[|n.probes| - 1], user, password)
    ensures n.token.Success? <==>
      IsOk(basic) || (IsHttpError(basic) && IsOk(digest) && !Rejects(digest.resp.text))
  {
    match basic
    case Raised(e) => Negotiation(Failure(Transport(e)), [Basic])
    case Answered(b) =>
      if !IsErrorStatus(b.status) then
        Negotiation(Success(Credential(Basic, user, password)), [Basic])
      else
        var token :=
          match digest
          case Raised(e) => Failure(Transport(e))
          case Answered(d) =>
            if IsErrorStatus(d.status) then Failure(HttpError(d.status))
            // the bare `raise` re-raises the HTTPError of the Basic probe
            else if Rejects(d.text) then Failure(HttpError(b.status))
            else Success(Credential(Digest, user, password));
        Negotiation(token, [Basic, Digest])
  }

  /** A Basic probe that passes decides the scheme; Digest is never probed. */
  lemma BasicAccepted(user: string, password: string, basic: Reply, digest: Reply)
    requires IsOk(basic)
    ensures Negotiate(user, password, basic, digest) ==
      Negotiation(Success(Credential(Basic, user, password)), [Basic])
  {
  }

  /** Negotiation yields Digest exactly when Basic was rejected and Digest passed with a clean body. */
  lemma DigestChosen(user: string, password: string, basic: Reply, digest: Reply)
    ensures Negotiate(user, password, basic, digest).token == Success(Credential(Digest, user, password))
      <==> IsHttpError(basic) && IsOk(digest) && !Rejects(digest.resp.text)
  {
  }

  /** Every way negotiation fails, and the exception it raises. */
  lemma NegotiationFails(user: string, password: string, basic: Reply, digest: Reply)
    ensures var t := Negotiate(user, password, basic, digest).token;
      && (basic.Raised? ==> t == Failure(Transport(basic.error)))
      && (IsHttpError(basic) && digest.Raised? ==> t == Failure(Transport(digest.error)))
      && (IsHttpError(basic) && IsHttpError(digest) ==> t == Failure(HttpError(digest.resp.status)))
      && (IsHttpError(basic) && IsOk(digest) && Rejects(digest.resp.text) ==>
            t == Failure(HttpError(basic.resp.status)))
  {
  }

  /** A Digest body carrying either marker in any letter case is rejected. */
  lemma MarkerInAnyCase(pre: string, marker: string, post: string)
    requires Lower(marker) == "invalid" || Lower(marker) == "error"
    ensures Rejects(pre + marker + post)
  {
    LowerConcat(pre + marker, post);
    LowerConcat(pre, marker);
    ContainsInfix(Lower(pre), Lower(marker), Lower(post));
  }

  /** Basic rejected with 401, Digest accepted with body "OK": the client settles on Digest. */
  lemma DigestScenario(user: string, password: string)
    ensures Negotiate(user, password, Answered(Response(401, "")), Answered(Response(200, "OK")))
      == Negotiation(Success(Credential(Digest, user, password)), [Basic, Digest])
  {
    assert Lower("OK") == "ok";
  }

  /** A Digest body saying "Invalid Authority" makes construction fail with the Basic probe's error. */
  lemma InvalidScenario(user: string, password: string)
    ensures Negotiate(user, password, Answered(Response(401, "")), Answered(Response(200, "Error: Invalid Authority")))
      .token == Failure(HttpError(401))
  {
    assert "Error: Invalid Authority" == "" + "Error" + ": Invalid Authority";
    MarkerInAnyCase("", "Error", ": Invalid Authority");
  }
}
