/**
 * lib/utils/security.ts: HTML escaping, the text sanitiser, the URL gate,
 * the CSRF comparison and the in-memory rate limiter.
 */
module Security {
  import opened Wrappers
  import opened Strings
  import opened Urls
  import Validations

  /* ------------------------------------------------------------ escapeHtml */

  function EscapeChar(c: char): (r: string)
    ensures |r| >= 1
  {
    if c == '&' then "&amp;"
    else if c == '<' then "&lt;"
    else if c == '>' then "&gt;"
    else if c == '"' then "&quot;"
    else if c == '\'' then "&#39;"
    else [c]
  }

  predicate IsMarkup(c: char) { c == '<' || c == '>' || c == '"' || c == '\'' }

  /** `escapeHtml`: each of `& < > " '` becomes its entity; nothing else changes. */
  function EscapeHtml(s: string): (r: string)
    ensures |r| >= |s|
    ensures forall i :: 0 <= i < |r| ==> !IsMarkup(r[i])
  {
    if s == [] then [] else EscapeChar(s[0]) + EscapeHtml(s[1..])
  }

  /** The inverse of `EscapeHtml`: the five entities back to their characters. */
  function UnescapeHtml(t: string): (r: string)
    decreases |t|
  {
    if t == [] then []
    else if StartsWith(t, "&amp;") then "&" + UnescapeHtml(t[5..])
    else if StartsWith(t, "&lt;") then "<" + UnescapeHtml(t[4..])
    else if StartsWith(t, "&gt;") then ">" + UnescapeHtml(t[4..])
    else if StartsWith(t, "&quot;") then "\"" + UnescapeHtml(t[6..])
    else if StartsWith(t, "&#39;") then "'" + UnescapeHtml(t[5..])
    else [t[0]] + UnescapeHtml(t[1..])
  }

  lemma UnescapeChar(c: char, rest: string)
    ensures UnescapeHtml(EscapeChar(c) + rest) == [c] + UnescapeHtml(rest)
  {
    var t := EscapeChar(c) + rest;
    var e := EscapeChar(c);
    assert t[..|e|] == e;
    assert t[|e|..] == rest;
    if c != '&' && c != '<' && c != '>' && c != '"' && c != '\'' {
      assert t[0] == c;
      assert !StartsWith(t, "&amp;") && !StartsWith(t, "&lt;") && !StartsWith(t, "&gt;");
      assert !StartsWith(t, "&quot;") && !StartsWith(t, "&#39;");
    } else if c == '<' {
      assert !StartsWith(t, "&amp;") by { assert t[1] == 'l'; }
    } else if c == '>' {
      assert !StartsWith(t, "&amp;") by { assert t[1] == 'g'; }
      assert !StartsWith(t, "&lt;") by { assert t[1] == 'g'; }
    } else if c == '"' {
      assert !StartsWith(t, "&amp;") && !StartsWith(t, "&lt;") && !StartsWith(t, "&gt;") by { assert t[1] == 'q'; }
    } else if c == '\'' {
      assert !StartsWith(t, "&amp;") && !StartsWith(t, "&lt;") && !StartsWith(t, "&gt;") by { assert t[1] == '#'; }
      assert !StartsWith(t, "&quot;") by { assert t[1] == '#'; }
    }
  }

  /** Escaping loses nothing: unescaping gives the original text back. */
  lemma {:induction false} EscapeHtmlRoundTrip(s: string)
    ensures UnescapeHtml(EscapeHtml(s)) == s
  {
    if s != [] {
      UnescapeChar(s[0], EscapeHtml(s[1..]));
      EscapeHtmlRoundTrip(s[1..]);
      assert [s[0]] + s[1..] == s;
    }
  }

  /** Text without any of the five special characters is left as it is. */
  lemma {:induction false} EscapeHtmlPlain(s: string)
    requires forall i :: 0 <= i < |s| ==> !IsMarkup(s[i]) && s[i] != '&'
    ensures EscapeHtml(s) == s
  {
    if s != [] {
      EscapeHtmlPlain(s[1..]);
      assert [s[0]] + s[1..] == s;
    }
  }

  /* ---------------------------------------------------------- sanitizeText */

  const JavascriptScheme: string := "javascript:"

  /** One pass of `.replace(/javascript:/gi, "")`. */
  function RemoveJavascript(s: string): (r: string)
    ensures |r| <= |s|
  {
    if s == [] then []
    else if StartsWithCI(s, JavascriptScheme) then RemoveJavascript(s[|JavascriptScheme|..])
    else [s[0]] + RemoveJavascript(s[1..])
  }

  /** The number of word characters of `s` from index `i` on. */
  function WordRun(s: string, i: nat): (n: nat)
    requires i <= |s|
    ensures i + n <= |s|
    ensures forall k :: i <= k < i + n ==> IsWordChar(s[k])
    ensures i + n == |s| || !IsWordChar(s[i + n])
    decreases |s| - i
  {
    if i < |s| && IsWordChar(s[i]) then 1 + WordRun(s, i + 1) else 0
  }

  /** The number of white-space characters of `s` from index `i` on. */
  function SpaceRun(s: string, i: nat): (n: nat)
    requires i <= |s|
    ensures i + n <= |s|
    ensures forall k :: i <= k < i + n ==> IsSpace(s[k])
    ensures i + n == |s| || !IsSpace(s[i + n])
    decreases |s| - i
  {
    if i < |s| && IsSpace(s[i]) then 1 + SpaceRun(s, i + 1) else 0
  }

  /**
   * The length of the match of `/on\w+\s*=/i` at the start of `s`. Neither
   * `\w+` nor `\s*` can give back characters to let `=` match, so the greedy
   * runs decide it.
   */
  function EventHandlerAt(s: string): (r: Option<nat>)
    ensures r.Some? ==> 4 <= r.value <= |s| && StartsWithCI(s, "on") && s[r.value - 1] == '='
  {
    if !StartsWithCI(s, "on") then None
    else
      var w := WordRun(s, 2);
      var sp := SpaceRun(s, 2 + w);
      if w >= 1 && 2 + w + sp < |s| && s[2 + w + sp] == '=' then Some(2 + w + sp + 1) else None
  }

  /** One pass of `.replace(/on\w+\s*=/gi, "")`. */
  function RemoveEventHandlers(s: string): (r: string)
    ensures |r| <= |s|
    decreases |s|
  {
    if s == [] then []
    else match EventHandlerAt(s)
      case Some(n) => RemoveEventHandlers(s[n..])
      case None => [s[0]] + RemoveEventHandlers(s[1..])
  }

  /** `sanitizeText`: script blocks, `javascript:`, event handlers, then trim. */
  function SanitizeText(s: string): (r: string)
    ensures |r| <= |s|
    ensures r == [] || (!IsSpace(r[0]) && !IsSpace(r[|r| - 1]))
  {
    Trim(RemoveEventHandlers(RemoveJavascript(Validations.StripScriptBlocks(s))))
  }

  lemma {:induction false} RemoveJavascriptPlain(s: string)
    requires !ContainsCI(s, JavascriptScheme)
    ensures RemoveJavascript(s) == s
    decreases |s|
  {
    NotContainsCITail(s, JavascriptScheme);
    if s != [] {
      RemoveJavascriptPlain(s[1..]);
      assert [s[0]] + s[1..] == s;
    }
  }

  lemma {:induction false} RemoveEventHandlersPlain(s: string)
    requires !ContainsCI(s, "on")
    ensures RemoveEventHandlers(s) == s
    decreases |s|
  {
    NotContainsCITail(s, "on");
    if s != [] {
      RemoveEventHandlersPlain(s[1..]);
      assert [s[0]] + s[1..] == s;
    }
  }

  /** Text with no `<script`, `javascript:` or `on` in any case is only trimmed. */
  lemma SanitizeTextPlain(s: string)
    requires !ContainsCI(s, Validations.ScriptOpen)
    requires !ContainsCI(s, JavascriptScheme)
    requires !ContainsCI(s, "on")
    ensures SanitizeText(s) == Trim(s)
  {
    Validations.StripWithoutScriptIsIdentity(s);
    RemoveJavascriptPlain(s);
    RemoveEventHandlersPlain(s);
  }

  /**
   * The replace is a single pass: removing one `javascript:` can join the
   * text around it into a new one, which stays in the output.
   */
  lemma SinglePassLeavesJavascript()
    ensures var p := JavascriptScheme; RemoveJavascript(p[..4] + p + p[4..]) == p
  {
    var p := JavascriptScheme;
    var a, t := p[..4], p + p[4..];
    assert p[..4] + p + p[4..] == a + t;
    forall i | 0 <= i < |a| ensures !StartsWithCI((a + t)[i..], p) {
      if i == 0 {
        StartsWithCIMismatch((a + t)[i..], p, 4);
      } else {
        StartsWithCIMismatch((a + t)[i..], p, 0);
      }
    }
    RemoveJavascriptKeeps(a, t);
    InnerSchemeRemoved();
    assert a + p[4..] == p;
  }

  /** The inner `javascript:` goes and the short tail after it is kept. */
  lemma InnerSchemeRemoved()
    ensures var p := JavascriptScheme; RemoveJavascript(p + p[4..]) == p[4..]
  {
    var p := JavascriptScheme;
    var t := p + p[4..];
    assert t[..11] == p;
    assert t[11..] == p[4..];
    ShortIsPlain(p[4..]);
  }

  /** A prefix at none of whose positions `javascript:` starts is kept as it is. */
  lemma {:induction false} RemoveJavascriptKeeps(a: string, t: string)
    requires forall i :: 0 <= i < |a| ==> !StartsWithCI((a + t)[i..], JavascriptScheme)
    ensures RemoveJavascript(a + t) == a + RemoveJavascript(t)
    decreases |a|
  {
    if a == [] {
      assert a + t == t;
    } else {
      var s := a + t;
      assert s[0..] == s;
      assert s[1..] == a[1..] + t;
      forall i | 0 <= i < |a[1..]| ensures !StartsWithCI((a[1..] + t)[i..], JavascriptScheme) {
        assert (a[1..] + t)[i..] == s[i + 1..];
      }
      RemoveJavascriptKeeps(a[1..], t);
      Validations.HeadThenTail(a, RemoveJavascript(t));
    }
  }

  lemma {:induction false} ShortIsPlain(s: string)
    requires |s| < |JavascriptScheme|
    ensures RemoveJavascript(s) == s
    decreases |s|
  {
    if s != [] {
      ShortIsPlain(s[1..]);
      assert [s[0]] + s[1..] == s;
    }
  }

  /* ----------------------------------------------------------- validateUrl */

  datatype UrlCheck = Valid(sanitizedUrl: string) | Invalid(error: string)

  const PrefixError: string := "URL must start with http:// or https://"
  const ProtocolError: string := "Only HTTP and HTTPS protocols are allowed"
  const PrivateError: string := "Private and localhost URLs are not allowed"
  const FormatError: string := "Invalid URL format"

  /** A lower-cased hostname that is loopback or in a private range. */
  function IsPrivateHost(h: string): (b: bool)
    ensures StartsWith(h, "10.") || StartsWith(h, "172.") || StartsWith(h, "192.168.") ==> b
    ensures b ==> h == "localhost" || (h != [] && '0' <= h[0] <= '9')
  {
    h == "localhost" || h == "127.0.0.1"
    || StartsWith(h, "192.168.") || StartsWith(h, "10.") || StartsWith(h, "172.")
  }

  /**
   * `validateUrl`. `production` stands for `NODE_ENV === "production"`; the
   * parser's `href` is `URL.toString()`.
   */
  function ValidateUrl(url: string, parse: UrlParser, production: bool): (r: UrlCheck)
    ensures !HasHttpPrefixCI(Trim(url)) ==> r == Invalid(PrefixError)
    ensures HasHttpPrefixCI(Trim(url)) && parse(Trim(url)).None? ==> r == Invalid(FormatError)
    ensures r.Valid? <==>
      && HasHttpPrefixCI(Trim(url))
      && parse(Trim(url)).Some?
      && parse(Trim(url)).value.protocol in {"http:", "https:"}
      && !(production && IsPrivateHost(LowerStr(parse(Trim(url)).value.hostname)))
    ensures r.Valid? ==> r.sanitizedUrl == parse(Trim(url)).value.href
    ensures r.Invalid? ==> r.error in {PrefixError, ProtocolError, PrivateError, FormatError}
  {
    var t := Trim(url);
    if !HasHttpPrefixCI(t) then Invalid(PrefixError)
    else match parse(t)
      case None => Invalid(FormatError)
      case Some(u) =>
        if u.protocol != "http:" && u.protocol != "https:" then Invalid(ProtocolError)
        else if production && IsPrivateHost(LowerStr(u.hostname)) then Invalid(PrivateError)
        else Valid(u.href)
  }

  /** Outside production the host is not inspected. */
  lemma ValidateUrlHostOnlyInProduction(url: string, parse: UrlParser)
    ensures ValidateUrl(url, parse, true).Valid? ==> ValidateUrl(url, parse, false).Valid?
    ensures ValidateUrl(url, parse, false).Valid? && !IsPrivateHost(LowerStr(parse(Trim(url)).value.hostname))
            ==> ValidateUrl(url, parse, true) == ValidateUrl(url, parse, false)
  {
  }

  /* ---------------------------------------------------- validateCSRFToken */

  /** `validateCSRFToken`: both present and equal. */
  function ValidateCsrfToken(token: string, expected: string): (r: bool)
    ensures r <==> token != [] && token == expected
    ensures token == [] || expected == [] ==> !r
  {
    if token == [] || expected == [] then false else token == expected
  }

  /* ----------------------------------------------------------- RateLimiter */

  /** The timestamps still inside the window at `now` (`now - time < windowMs`). */
  function InWindow(times: seq<int>, now: int, windowMs: nat): (r: seq<int>)
    ensures |r| <= |times|
    ensures forall i :: 0 <= i < |r| ==> now - r[i] < windowMs
    ensures forall t :: t in r <==> t in times && now - t < windowMs
  {
    if times == [] then []
    else if now - times[0] < windowMs then [times[0]] + InWindow(times[1..], now, windowMs)
    else InWindow(times[1..], now, windowMs)
  }

  lemma {:induction false} InWindowAppend(a: seq<int>, b: seq<int>, now: int, windowMs: nat)
    ensures InWindow(a + b, now, windowMs) == InWindow(a, now, windowMs) + InWindow(b, now, windowMs)
  {
    if a == [] {
      assert a + b == b;
    } else {
      assert (a + b)[0] == a[0];
      assert (a + b)[1..] == a[1..] + b;
      InWindowAppend(a[1..], b, now, windowMs);
    }
  }

  /** Filtering twice at the same instant filters nothing more. */
  lemma {:induction false} InWindowIdempotent(times: seq<int>, now: int, windowMs: nat)
    ensures InWindow(InWindow(times, now, windowMs), now, windowMs) == InWindow(times, now, windowMs)
  {
    if times != [] {
      InWindowIdempotent(times[1..], now, windowMs);
    }
  }

  /** `RateLimiter`: per-identifier request times, at most `maxRequests` stored. */
  class RateLimiter {
    var requests: map<string, seq<int>>
    const maxRequests: nat
    const windowMs: nat

    predicate Valid()
      reads this
    {
      forall id :: id in requests ==> |requests[id]| <= maxRequests
    }

    function History(id: string): seq<int>
      reads this
    {
      if id in requests then requests[id] else []
    }

    /** `new RateLimiter()` takes 10 requests per 60000 ms. */
    constructor (maxRequests: nat := 10, windowMs: nat := 60000)
      ensures Valid() && requests == map[]
      ensures this.maxRequests == maxRequests && this.windowMs == windowMs
    {
      this.maxRequests := maxRequests;
      this.windowMs := windowMs;
      requests := map[];
    }

    /**
     * `isAllowed`: drop the times outside the window; refuse, storing nothing,
     * when `maxRequests` remain; otherwise record `now` and allow.
     */
    method IsAllowed(id: string, now: int) returns (allowed: bool)
      requires Valid()
      modifies this
      ensures Valid()
      ensures allowed <==> |InWindow(old(History(id)), now, windowMs)| < maxRequests
      ensures !allowed ==> requests == old(requests)
      ensures allowed ==> requests == old(requests)[id := InWindow(old(History(id)), now, windowMs) + [now]]
      ensures |InWindow(History(id), now, windowMs)| <= maxRequests
    {
      var valid := InWindow(History(id), now, windowMs);
      if |valid| >= maxRequests {
        return false;
      }
      requests := requests[id := valid + [now]];
      InWindowAppend(valid, [now], now, windowMs);
      InWindowIdempotent(valid, now, windowMs);
      return true;
    }

    /** `reset` forgets one identifier; the others keep their histories. */
    method Reset(id: string)
      requires Valid()
      modifies this
      ensures Valid()
      ensures requests == old(requests) - {id}
      ensures forall other :: other != id ==> History(other) == old(History(other))
    {
      requests := requests - {id};
    }
  }
}
