/** `fetch_json(url, params, headers)` once the network is abstracted: the
    reply of `requests.get` and the JSON decoder are inputs, and every failure
    becomes `None` instead of an exception. */
module Fetch {
  import opened PyJson

  /** What `requests.get(..., timeout=30)` produced: nothing (connection
      error, timeout), or a status code and the body text. */
  datatype HttpReply = NoReply | Reply(status: int, body: string)

  /** `raise_for_status()` raises for client and server errors. */
  predicate StatusRaises(status: int)
  {
    400 <= status < 600
  }

  /** The characters Python's `str.strip()` removes by default. */
  predicate IsSpace(c: char)
  {
    c == ' ' || '\t' <= c <= '\r' || '\U{1C}' <= c <= '\U{1F}' || c == '\U{85}' ||
    c == '\U{A0}' || c == '\U{1680}' || '\U{2000}' <= c <= '\U{200A}' ||
    c == '\U{2028}' || c == '\U{2029}' || c == '\U{202F}' || c == '\U{205F}' || c == '\U{3000}'
  }

  predicate AllSpace(s: string)
  {
    forall j :: 0 <= j < |s| ==> IsSpace(s[j])
  }

  function TrimStart(s: string): string
  {
    if s != [] && IsSpace(s[0]) then TrimStart(s[1..]) else s
  }

  function TrimEnd(s: string): (r: string)
    ensures r <= s
    ensures AllSpace(s[|r|..])
  {
    if s != [] && IsSpace(s[|s| - 1]) then
      var r := TrimEnd(s[..|s| - 1]);
      assert s[|r|..] == s[..|s| - 1][|r|..] + [s[|s| - 1]];
      r
    else s
  }

  /** `s.strip()`. */
  function Strip(s: string): string
  {
    TrimEnd(TrimStart(s))
  }

  /** The guard of the later revision: the stripped body is not empty and
      starts with `{` or `[`. */
  predicate LooksLikeJson(body: string)
  {
    var t := Strip(body);
    t != [] && (t[0] == '{' || t[0] == '[')
  }

  /** `fetch_json` of fixed_final_app.py: the body guard runs before decoding.
      `decode` is `r.json()`, `None` where it raises `ValueError`. */
  function FetchGuarded(reply: HttpReply, decode: string -> Option<Json>): Option<Json>
  {
    match reply
    case NoReply => None
    case Reply(status, body) =>
      if StatusRaises(status) then None
      else if !LooksLikeJson(body) then None
      else decode(body)
  }

  /** `fetch_json` of integrated_app.py: every exception gives `None`. */
  function FetchPlain(reply: HttpReply, decode: string -> Option<Json>): Option<Json>
  {
    match reply
    case NoReply => None
    case Reply(status, body) => if StatusRaises(status) then None else decode(body)
  }

  /** Neither revision raises: a missing reply, an error status and a body
      that does not decode all give `None`, and a value is only ever the
      decoding of the body of a successful reply (which, in the later
      revision, also passed the guard). */
  lemma FailuresGiveNone(reply: HttpReply, decode: string -> Option<Json>)
    ensures FetchPlain(reply, decode).Some? <==>
      reply.Reply? && !StatusRaises(reply.status) && decode(reply.body).Some?
    ensures FetchPlain(reply, decode).Some? ==> FetchPlain(reply, decode) == decode(reply.body)
    ensures FetchGuarded(reply, decode).Some? <==>
      reply.Reply? && !StatusRaises(reply.status) && LooksLikeJson(reply.body) && decode(reply.body).Some?
    ensures FetchGuarded(reply, decode).Some? ==> FetchGuarded(reply, decode) == decode(reply.body)
  {
  }

  /** The right trim keeps the first character of a text that starts with a
      non-blank character. */
  lemma TrimEndKeepsHead(t: string)
    requires t != [] && !IsSpace(t[0])
    ensures TrimEnd(t) != [] && TrimEnd(t)[0] == t[0]
  {
  }

  /** The guard passes exactly when the body starts, after blanks, with `{` or `[`. */
  lemma {:induction false} LooksLikeJsonIff(body: string)
    ensures LooksLikeJson(body) <==>
      exists i :: 0 <= i < |body| && AllSpace(body[..i]) && (body[i] == '{' || body[i] == '[')
  {
    if body == [] {
    } else if IsSpace(body[0]) {
      var rest := body[1..];
      LooksLikeJsonIff(rest);
      assert Strip(body) == Strip(rest);
      if LooksLikeJson(body) {
        var i :| 0 <= i < |rest| && AllSpace(rest[..i]) && (rest[i] == '{' || rest[i] == '[');
        assert body[..i + 1] == [body[0]] + rest[..i];
        assert body[i + 1] == rest[i];
      } else {
        forall i | 0 <= i < |body| && AllSpace(body[..i])
          ensures body[i] != '{' && body[i] != '['
        {
          if i > 0 {
            assert rest[..i - 1] == body[1..i];
            assert AllSpace(rest[..i - 1]);
            assert body[i] == rest[i - 1];
          }
        }
      }
    } else {
      assert TrimStart(body) == body;
      TrimEndKeepsHead(body);
      forall i | 0 < i < |body| ensures !AllSpace(body[..i]) {
        assert body[..i][0] == body[0];
      }
      assert AllSpace(body[..0]);
    }
  }

  /** Blanks before the body do not change the verdict of the guard. */
  lemma {:induction false} LeadingBlanksIgnored(blanks: string, body: string)
    requires AllSpace(blanks)
    ensures LooksLikeJson(blanks + body) == LooksLikeJson(body)
    ensures TrimStart(blanks + body) == TrimStart(body)
  {
    if blanks != [] {
      assert (blanks + body)[1..] == blanks[1..] + body;
      LeadingBlanksIgnored(blanks[1..], body);
    } else {
      assert blanks + body == body;
    }
  }

  /** The later revision rejects, without decoding, every body that fails the
      guard, and otherwise returns what the earlier revision returns: it never
      yields a value the earlier one would not. */
  lemma GuardedRefinesPlain(reply: HttpReply, decode: string -> Option<Json>)
    ensures reply.Reply? && !LooksLikeJson(reply.body) ==> FetchGuarded(reply, decode).None?
    ensures reply.Reply? && LooksLikeJson(reply.body) ==>
              FetchGuarded(reply, decode) == FetchPlain(reply, decode)
    ensures FetchGuarded(reply, decode).Some? ==> FetchGuarded(reply, decode) == FetchPlain(reply, decode)
  {
  }
}
