/**
  A model of the in-memory shortcode registry of a small URL-shortening
  service: the map from short codes to (original URL, expiry), random code
  generation with a bounded number of retries, creation of a link with a
  custom or generated code, and lookup with lazy deletion of expired links.

  Randomness is supplied as per-character draws (indices into the alphabet),
  and the current time as an integer number of seconds.
 */
module Shortener {

  // ---------------------------------------------------------------------
  // Constants
  // ---------------------------------------------------------------------

  /** Python's `string.ascii_lowercase`: "abcdefghijklmnopqrstuvwxyz". */
  const AsciiLowercase: string := CharRange('a', 26)
  /** Python's `string.ascii_uppercase`: "ABCDEFGHIJKLMNOPQRSTUVWXYZ". */
  const AsciiUppercase: string := CharRange('A', 26)
  /** Python's `string.ascii_letters`. */
  const AsciiLetters: string := AsciiLowercase + AsciiUppercase
  /** Python's `string.digits`: "0123456789". */
  const Digits: string := CharRange('0', 10)
  /** The population random codes are drawn from: `ascii_letters + digits`. */
  const Alphabet: string := AsciiLetters + Digits

  /** Default length of a generated code. */
  const CodeLength: nat := 6
  /** Default number of generation attempts. */
  const MaxAttempts: nat := 5
  /** Validity, in minutes, used when the request gives none (or zero). */
  const DefaultValidity: int := 30
  /** Seconds per minute: `timedelta(minutes = v)` is `v * SecondsPerMinute` seconds. */
  const SecondsPerMinute: int := 60
  /** The prefix of every short URL returned. */
  const BaseUrl: string := "http://localhost:8000/"

  // ---------------------------------------------------------------------
  // Data model
  // ---------------------------------------------------------------------

  datatype Option<T> = None | Some(value: T)

  /** The four HTTP failures the registry reports. */
  datatype Error = Conflict400 | Exhausted500 | NotFound404 | Expired410

  datatype Result<T> = Ok(value: T) | Err(error: Error)

  /** The record stored per code. */
  datatype Link = Link(originalUrl: string, expiresAt: int)

  /**
    The body of a creation request. `url` is `str(payload.url)`: the URL
    after validation, in the normalised form the validating library prints.
   */
  datatype CreateRequest = CreateRequest(url: string, validity: Option<int>, customCode: Option<string>)

  /** The body of a successful creation response. */
  datatype Created = Created(shortUrl: string, expiresAt: int)

  /** The outcome of one operation: what it reports and the map afterwards. */
  datatype Step<T> = Step(result: Result<T>, links: map<string, Link>)

  /** Every key of the registry is a non-empty code. */
  ghost predicate NoEmptyCode(links: map<string, Link>)
  {
    forall c :: c in links ==> c != ""
  }

  // ---------------------------------------------------------------------
  // The alphabet
  // ---------------------------------------------------------------------

  /** `n` consecutive characters starting at `first`. */
  function CharRange(first: char, n: nat): string
    requires first as int + n <= 0xD800
  {
    seq(n, i requires 0 <= i < n => (first as int + i) as char)
  }

  predicate IsAlphanumeric(ch: char)
  {
    'a' <= ch <= 'z' || 'A' <= ch <= 'Z' || '0' <= ch <= '9'
  }

  /** The alphabet holds exactly the 62 ASCII letters and digits, each once. */
  lemma AlphabetIsAlphanumeric()
    ensures |Alphabet| == 62
    ensures forall i, j :: 0 <= i < j < |Alphabet| ==> Alphabet[i] != Alphabet[j]
    ensures forall ch :: ch in Alphabet <==> IsAlphanumeric(ch)
  {
    forall i | 0 <= i < |Alphabet|
      ensures Alphabet[i] as int == if i < 26 then 'a' as int + i
                                    else if i < 52 then 'A' as int + (i - 26)
                                    else '0' as int + (i - 52)
    {
      if i < 26 {
        assert Alphabet[i] == AsciiLowercase[i];
      } else if i < 52 {
        assert Alphabet[i] == AsciiUppercase[i - 26];
      } else {
        assert Alphabet[i] == Digits[i - 52];
      }
    }
    forall ch | IsAlphanumeric(ch) ensures ch in Alphabet {
      if 'a' <= ch <= 'z' {
        assert Alphabet[ch as int - 'a' as int] == ch;
      } else if 'A' <= ch <= 'Z' {
        assert Alphabet[26 + (ch as int - 'A' as int)] == ch;
      } else {
        assert Alphabet[52 + (ch as int - '0' as int)] == ch;
      }
    }
  }

  // ---------------------------------------------------------------------
  // Code generation
  // ---------------------------------------------------------------------

  /** The draws `random.choices` makes for a code of `length` characters. */
  predicate IsCodeDraw(length: int, draws: seq<nat>)
  {
    && |draws| == (if length < 0 then 0 else length)
    && forall j :: 0 <= j < |draws| ==> draws[j] < |Alphabet|
  }

  /**
    A candidate code: one alphabet symbol per draw. A negative length
    gives the empty code, as `random.choices` with a negative `k` does.
   */
  function CreateRandomCode(length: int, draws: seq<nat>): (code: string)
    requires IsCodeDraw(length, draws)
    ensures length >= 0 ==> |code| == length
    ensures length < 0 ==> code == ""
    ensures forall j :: 0 <= j < |code| ==> code[j] in Alphabet
  {
    seq(|draws|, j requires 0 <= j < |draws| => Alphabet[draws[j]])
  }

  /** The position of `ch` in `s`. */
  function IndexOf(s: string, ch: char): (k: nat)
    requires ch in s
    ensures k < |s| && s[k] == ch
  {
    if s[0] == ch then 0 else 1 + IndexOf(s[1..], ch)
  }

  /** Every string of `length` alphabet symbols is a possible random code. */
  lemma {:induction false} EveryCodeIsReachable(length: nat, code: string)
    requires |code| == length
    requires forall j :: 0 <= j < |code| ==> code[j] in Alphabet
    ensures exists draws :: IsCodeDraw(length, draws) && CreateRandomCode(length, draws) == code
  {
    var draws := seq(|code|, j requires 0 <= j < |code| => IndexOf(Alphabet, code[j]));
    assert IsCodeDraw(length, draws);
    assert CreateRandomCode(length, draws) == code;
  }

  /** One draw of `CodeLength` characters per generation attempt. */
  predicate ValidDraws(draws: seq<seq<nat>>)
  {
    forall i :: 0 <= i < |draws| ==> IsCodeDraw(CodeLength, draws[i])
  }

  /** The codes the successive attempts produce. */
  function Candidates(draws: seq<seq<nat>>): seq<string>
    requires ValidDraws(draws)
  {
    seq(|draws|, i requires 0 <= i < |draws| => CreateRandomCode(CodeLength, draws[i]))
  }

  /**
    The first of the first `n` candidates that is not a key of `links`, or
    `Exhausted500` when all of them are taken (at once when `n <= 0`).
   */
  function FirstFree(links: map<string, Link>, codes: seq<string>, n: int): (r: Result<string>)
    requires n <= |codes|
    ensures r.Ok? ==> exists k :: 0 <= k < n && codes[k] == r.value && r.value !in links
                                  && forall j :: 0 <= j < k ==> codes[j] in links
    ensures r.Err? ==> r.error == Exhausted500 && forall j :: 0 <= j < n ==> codes[j] in links
    decreases n
  {
    if n <= 0 then Err(Exhausted500)
    else if codes[0] !in links then Ok(codes[0])
    else
      FirstFree(links, codes[1..], n - 1)
  }

  // ---------------------------------------------------------------------
  // Creation
  // ---------------------------------------------------------------------

  /** `payload.custom_code or ...`: a missing or empty custom code means "generate". */
  predicate HasCustomCode(customCode: Option<string>)
  {
    customCode.Some? && customCode.value != ""
  }

  /** `payload.validity or 30`: a missing or zero validity means 30 minutes. */
  function EffectiveValidity(validity: Option<int>): (minutes: int)
    ensures minutes != 0
    ensures minutes == DefaultValidity || validity == Some(minutes)
    ensures validity.Some? && validity.value != 0 ==> minutes == validity.value
  {
    match validity
    case None => DefaultValidity
    case Some(v) => if v == 0 then DefaultValidity else v
  }

  /** The code a creation request uses: the custom one, or a generated one. */
  function ChosenCode(links: map<string, Link>, customCode: Option<string>, draws: seq<seq<nat>>): Result<string>
    requires ValidDraws(draws) && MaxAttempts <= |draws|
  {
    if HasCustomCode(customCode) then Ok(customCode.value)
    else FirstFree(links, Candidates(draws), MaxAttempts)
  }

  /** The expiry of a link created at `now`. */
  function ExpiryOf(req: CreateRequest, now: int): int
  {
    now + EffectiveValidity(req.validity) * SecondsPerMinute
  }

  /**
    Creating a short link: choose the code, refuse one already present,
    then insert exactly one entry and report the short URL and expiry.
   */
  function Create(links: map<string, Link>, req: CreateRequest, now: int, draws: seq<seq<nat>>): (s: Step<Created>)
    requires ValidDraws(draws) && MaxAttempts <= |draws|
    // failures leave the map alone
    ensures s.result.Err? ==> s.links == links
    // a conflict happens exactly when the custom code is taken
    ensures s.result == Err(Conflict400) <==> HasCustomCode(req.customCode) && req.customCode.value in links
    // exhaustion happens exactly when no custom code is given and all attempts hit taken codes
    ensures s.result == Err(Exhausted500) <==>
              !HasCustomCode(req.customCode) && forall i :: 0 <= i < MaxAttempts ==> Candidates(draws)[i] in links
    ensures s.result.Err? ==> s.result.error in {Conflict400, Exhausted500}
    // success inserts one new key and keeps every other entry
    ensures s.result.Ok? ==>
              var code := ChosenCode(links, req.customCode, draws).value;
              && code !in links
              && s.links.Keys == links.Keys + {code}
              && |s.links| == |links| + 1
              && s.links[code] == Link(req.url, ExpiryOf(req, now))
              && (forall c :: c in links ==> s.links[c] == links[c])
              && s.result.value == Created(BaseUrl + code, s.links[code].expiresAt)
              && (HasCustomCode(req.customCode) ==> code == req.customCode.value)
              && (!HasCustomCode(req.customCode) ==>
                    |code| == CodeLength && (forall j :: 0 <= j < |code| ==> code[j] in Alphabet)
                    && exists i :: 0 <= i < MaxAttempts && code == Candidates(draws)[i])
    ensures NoEmptyCode(links) ==> NoEmptyCode(s.links)
  {
    match ChosenCode(links, req.customCode, draws)
    case Err(e) => Step(Err(e), links)
    case Ok(code) =>
      if code in links then Step(Err(Conflict400), links)
      else
        var expiry := ExpiryOf(req, now);
        Step(Ok(Created(BaseUrl + code, expiry)), links[code := Link(req.url, expiry)])
  }

  // ---------------------------------------------------------------------
  // Lookup
  // ---------------------------------------------------------------------

  /**
    Resolving a code: unknown codes are 404; an expired code is deleted
    and reported as 410; otherwise the original URL is returned.
   */
  function Resolve(links: map<string, Link>, code: string, now: int): (s: Step<string>)
    ensures s.result == Err(NotFound404) <==> code !in links
    ensures s.result == Err(Expired410) <==> code in links && now > links[code].expiresAt
    ensures s.result.Ok? <==> code in links && now <= links[code].expiresAt
    ensures s.result.Ok? ==> s.result.value == links[code].originalUrl
    ensures s.result == Err(Expired410) ==> s.links == links - {code} && |s.links| == |links| - 1
    ensures s.result != Err(Expired410) ==> s.links == links
    ensures NoEmptyCode(links) ==> NoEmptyCode(s.links)
  {
    if code !in links then Step(Err(NotFound404), links)
    else if now > links[code].expiresAt then Step(Err(Expired410), links - {code})
    else Step(Ok(links[code].originalUrl), links)
  }

  // ---------------------------------------------------------------------
  // Properties of sequences of requests
  // ---------------------------------------------------------------------

  /** A link created at `now` resolves to its URL at any time up to its expiry. */
  lemma CreateThenResolve(links: map<string, Link>, req: CreateRequest, now: int, draws: seq<seq<nat>>, later: int)
    requires ValidDraws(draws) && MaxAttempts <= |draws|
    requires Create(links, req, now, draws).result.Ok?
    requires later <= Create(links, req, now, draws).result.value.expiresAt
    ensures var s := Create(links, req, now, draws);
            var code := ChosenCode(links, req.customCode, draws).value;
            Resolve(s.links, code, later) == Step(Ok(req.url), s.links)
  {
  }

  /** A second creation with the same custom code fails and does not overwrite the first. */
  lemma CreateTwiceConflicts(links: map<string, Link>, req: CreateRequest, now: int, draws: seq<seq<nat>>,
                             req2: CreateRequest, now2: int, draws2: seq<seq<nat>>)
    requires ValidDraws(draws) && MaxAttempts <= |draws|
    requires ValidDraws(draws2) && MaxAttempts <= |draws2|
    requires HasCustomCode(req.customCode) && req2.customCode == req.customCode
    requires Create(links, req, now, draws).result.Ok?
    ensures var s := Create(links, req, now, draws);
            Create(s.links, req2, now2, draws2) == Step(Err(Conflict400), s.links)
  {
  }

  /** Past its expiry a link is reported expired once, then is gone. */
  lemma ExpiredThenNotFound(links: map<string, Link>, code: string, now: int, later: int)
    requires code in links && now > links[code].expiresAt
    ensures Resolve(links, code, now).result == Err(Expired410)
    ensures Resolve(Resolve(links, code, now).links, code, later).result == Err(NotFound404)
  {
  }

  /**
    A negative validity is passed through, so the new link is already
    expired: the first lookup at creation time reports 410, the next 404.
   */
  lemma NegativeValidityExpiresAtOnce(links: map<string, Link>, req: CreateRequest, now: int, draws: seq<seq<nat>>)
    requires ValidDraws(draws) && MaxAttempts <= |draws|
    requires req.validity.Some? && req.validity.value < 0
    requires Create(links, req, now, draws).result.Ok?
    ensures var s := Create(links, req, now, draws);
            var code := ChosenCode(links, req.customCode, draws).value;
            && s.result.value.expiresAt < now
            && Resolve(s.links, code, now) == Step(Err(Expired410), links)
            && Resolve(links, code, now).result == Err(NotFound404)
  {
  }

  /** One request to the service. */
  datatype Request =
    | Shorten(req: CreateRequest, now: int, draws: seq<seq<nat>>)
    | Redirect(code: string, now: int)

  predicate WellFormed(rq: Request)
  {
    rq.Shorten? ==> ValidDraws(rq.draws) && MaxAttempts <= |rq.draws|
  }

  /** The map after one request. */
  function Apply(links: map<string, Link>, rq: Request): map<string, Link>
    requires WellFormed(rq)
  {
    match rq
    case Shorten(req, now, draws) => Create(links, req, now, draws).links
    case Redirect(code, now) => Resolve(links, code, now).links
  }

  /** The map after serving `rqs` in order. */
  function Run(links: map<string, Link>, rqs: seq<Request>): map<string, Link>
    requires forall i :: 0 <= i < |rqs| ==> WellFormed(rqs[i])
    decreases |rqs|
  {
    if rqs == [] then links else Run(Apply(links, rqs[0]), rqs[1..])
  }

  /**
    Links are never changed once created, and only an expired lookup of
    their own code removes them: if no request looks `code` up after its
    expiry, the link is still there, unchanged, after any run.
   */
  lemma {:induction false} LinkPersists(links: map<string, Link>, rqs: seq<Request>, code: string)
    requires forall i :: 0 <= i < |rqs| ==> WellFormed(rqs[i])
    requires code in links
    requires forall i :: 0 <= i < |rqs| && rqs[i].Redirect? && rqs[i].code == code ==>
               rqs[i].now <= links[code].expiresAt
    ensures code in Run(links, rqs) && Run(links, rqs)[code] == links[code]
    decreases |rqs|
  {
    if rqs != [] {
      var next := Apply(links, rqs[0]);
      assert code in next && next[code] == links[code];
      forall i | 0 <= i < |rqs[1..]|
        ensures WellFormed(rqs[1..][i])
        ensures rqs[1..][i].Redirect? && rqs[1..][i].code == code ==> rqs[1..][i].now <= next[code].expiresAt
      {
        assert rqs[1..][i] == rqs[i + 1];
      }
      LinkPersists(next, rqs[1..], code);
    }
  }

  /** Serving requests from a registry without empty codes never stores one. */
  lemma {:induction false} RunKeepsNoEmptyCode(links: map<string, Link>, rqs: seq<Request>)
    requires forall i :: 0 <= i < |rqs| ==> WellFormed(rqs[i])
    requires NoEmptyCode(links)
    ensures NoEmptyCode(Run(links, rqs))
    decreases |rqs|
  {
    if rqs != [] {
      assert forall i :: 0 <= i < |rqs[1..]| ==> rqs[1..][i] == rqs[i + 1];
      RunKeepsNoEmptyCode(Apply(links, rqs[0]), rqs[1..]);
    }
  }

  // ---------------------------------------------------------------------
  // The registry object
  // ---------------------------------------------------------------------

  /** The process-wide table of short links. */
  class Registry {
    var links: map<string, Link>

    ghost predicate Valid()
      reads this
    {
      NoEmptyCode(links)
    }

    constructor ()
      ensures Valid() && links == map[]
    {
      links := map[];
    }

    /**
      Tries the candidates of the first `maxAttempts` draws in order and
      returns the first one that is not a key; the map is only read.
     */
    method GetUniqueCode(maxAttempts: int, draws: seq<seq<nat>>) returns (r: Result<string>)
      requires ValidDraws(draws) && maxAttempts <= |draws|
      ensures r == FirstFree(links, Candidates(draws), maxAttempts)
      ensures r.Ok? <==> exists i :: 0 <= i < maxAttempts && Candidates(draws)[i] !in links
      ensures r.Ok? ==> r.value !in links && |r.value| == CodeLength
      ensures r.Ok? ==> forall j :: 0 <= j < |r.value| ==> r.value[j] in Alphabet
      ensures r.Err? ==> r.error == Exhausted500
    {
      var i := 0;
      while i < maxAttempts
        invariant 0 <= i <= |draws|
        invariant i <= maxAttempts || i == 0
        invariant forall j :: 0 <= j < i ==> Candidates(draws)[j] in links
      {
        var code := CreateRandomCode(CodeLength, draws[i]);
        assert code == Candidates(draws)[i];
        if code !in links {
          return Ok(code);
        }
        i := i + 1;
      }
      return Err(Exhausted500);
    }

    /** Handles a creation request at time `now`. */
    method ShortenUrl(req: CreateRequest, now: int, draws: seq<seq<nat>>) returns (r: Result<Created>)
      requires Valid() && ValidDraws(draws) && MaxAttempts <= |draws|
      modifies this
      ensures Valid()
      ensures Step(r, links) == Create(old(links), req, now, draws)
      ensures r.Err? ==> links == old(links)
    {
      var code: string;
      if HasCustomCode(req.customCode) {
        code := req.customCode.value;
      } else {
        var generated := GetUniqueCode(MaxAttempts, draws);
        if generated.Err? {
          return Err(generated.error);
        }
        code := generated.value;
      }
      if code in links {
        return Err(Conflict400);
      }
      var expiry := ExpiryOf(req, now);
      links := links[code := Link(req.url, expiry)];
      r := Ok(Created(BaseUrl + code, expiry));
    }

    /** Handles a lookup of `code` at time `now`. */
    method RedirectToOriginal(code: string, now: int) returns (r: Result<string>)
      requires Valid()
      modifies this
      ensures Valid()
      ensures Step(r, links) == Resolve(old(links), code, now)
      ensures r.Ok? ==> links == old(links) && r.value == links[code].originalUrl
    {
      if code !in links {
        return Err(NotFound404);
      }
      var info := links[code];
      if now > info.expiresAt {
        links := links - {code};
        return Err(Expired410);
      }
      return Ok(info.originalUrl);
    }
  }
}
