/** CORS origin checking (src/index.js:13-14, 28-40): the allowed-origin
    list read from the environment, and `isOriginAllowed`. */
module Cors {
  import opened Values
  import opened Strings

  /** `process.env.CORS_ALLOWED_ORIGINS || process.env.CORS_ORIGIN || ''`;
      an unset variable is absent from `env`. */
  function RawAllowed(env: map<string, string>): (raw: string)
    ensures "CORS_ALLOWED_ORIGINS" in env && env["CORS_ALLOWED_ORIGINS"] != "" ==> raw == env["CORS_ALLOWED_ORIGINS"]
    ensures !("CORS_ALLOWED_ORIGINS" in env && env["CORS_ALLOWED_ORIGINS"] != "") && "CORS_ORIGIN" in env ==> raw == env["CORS_ORIGIN"]
  {
    if "CORS_ALLOWED_ORIGINS" in env && env["CORS_ALLOWED_ORIGINS"] != "" then env["CORS_ALLOWED_ORIGINS"]
    else if "CORS_ORIGIN" in env && env["CORS_ORIGIN"] != "" then env["CORS_ORIGIN"]
    else ""
  }

  function TrimAll(parts: seq<string>): (r: seq<string>)
    ensures |r| == |parts|
    ensures forall i :: 0 <= i < |parts| ==> r[i] == Trim(parts[i])
  {
    if parts == [] then [] else [Trim(parts[0])] + TrimAll(parts[1..])
  }

  /** Trimmed comma-free pieces stay comma-free and are their own trim. */
  lemma TrimmedEntries(parts: seq<string>)
    requires forall i :: 0 <= i < |parts| ==> ',' !in parts[i]
    ensures forall i :: 0 <= i < |parts| ==> ',' !in TrimAll(parts)[i] && Trim(TrimAll(parts)[i]) == TrimAll(parts)[i]
  {
    forall i | 0 <= i < |parts|
      ensures ',' !in TrimAll(parts)[i] && Trim(TrimAll(parts)[i]) == TrimAll(parts)[i]
    {
      TrimKeepsOut(parts[i], ',');
      TrimIdempotent(parts[i]);
    }
  }

  /** Entries that are their own trim are left alone. */
  lemma TrimAllKeeps(parts: seq<string>)
    requires forall i :: 0 <= i < |parts| ==> Trim(parts[i]) == parts[i]
    ensures TrimAll(parts) == parts
  {
  }

  /** `.filter(Boolean)` on strings. */
  function NonEmpty(parts: seq<string>): (r: seq<string>)
    ensures forall s :: s in r <==> s in parts && s != ""
  {
    if parts == [] then []
    else
      var rest := NonEmpty(parts[1..]);
      assert forall s :: s in parts <==> s == parts[0] || s in parts[1..];
      if parts[0] != "" then [parts[0]] + rest else rest
  }

  /** `rawAllowed.split(',').map(s => s.trim()).filter(Boolean)` */
  function ParseAllowed(raw: string): (allowed: seq<string>)
    ensures forall a :: a in allowed ==> a != "" && ',' !in a && Trim(a) == a
  {
    var parts := Split(raw, ',');
    TrimmedEntries(parts);
    NonEmpty(TrimAll(parts))
  }

  /** A list of non-empty, comma-free entries without surrounding white
      space survives being written comma-separated and read back. */
  lemma ParseJoined(allowed: seq<string>)
    requires forall i :: 0 <= i < |allowed| ==> allowed[i] != "" && ',' !in allowed[i] && Trim(allowed[i]) == allowed[i]
    ensures ParseAllowed(Join(allowed, ',')) == allowed
  {
    if allowed == [] {
      assert Split("", ',') == [""];
      assert TrimAll([""]) == [""];
    } else {
      SplitJoin(allowed, ',');
      TrimAllKeeps(allowed);
      NonEmptyKeeps(allowed);
    }
  }

  lemma {:induction false} NonEmptyKeeps(parts: seq<string>)
    requires forall i :: 0 <= i < |parts| ==> parts[i] != ""
    ensures NonEmpty(parts) == parts
  {
    if parts != [] {
      NonEmptyKeeps(parts[1..]);
      assert parts == [parts[0]] + parts[1..];
    }
  }

  /** With neither variable set the list is empty. `isOriginAllowed`
      refuses every origin for it, but the server never asks: it installs
      permissive CORS instead and admits every origin. */
  lemma NothingConfigured(env: map<string, string>, origin: Option<string>)
    requires "CORS_ALLOWED_ORIGINS" !in env && "CORS_ORIGIN" !in env
    ensures ParseAllowed(RawAllowed(env)) == []
    ensures !IsOriginAllowed(origin, ParseAllowed(RawAllowed(env)))
    ensures Admits(origin, ParseAllowed(RawAllowed(env)))
  {
    assert Split("", ',') == [""];
    assert Trim("") == "";
    assert TrimAll([""]) == [""];
  }

  /** An entry `*.suffix` admits an origin ending in `.suffix`, keeping the
      leading dot of the entry. */
  predicate WildcardMatches(a: string, origin: string)
    ensures WildcardMatches(a, origin) <==> StartsWith(a, "*.") && EndsWith(origin, "." + a[2..])
  {
    assert StartsWith(a, "*.") ==> a[1..] == "." + a[2..];
    StartsWith(a, "*.") && EndsWith(origin, a[1..])
  }

  /** The `for` loop: some entry is the origin or a wildcard it matches. */
  predicate AnyEntryMatches(origin: string, allowed: seq<string>)
    ensures origin in allowed ==> AnyEntryMatches(origin, allowed)
    decreases |allowed|
  {
    allowed != [] && (allowed[0] == origin || WildcardMatches(allowed[0], origin) || AnyEntryMatches(origin, allowed[1..]))
  }

  /** `isOriginAllowed(origin, allowedList)`; a missing Origin header and an
      empty one are both falsy. */
  predicate IsOriginAllowed(origin: Option<string>, allowed: seq<string>)
    ensures IsOriginAllowed(origin, allowed) ==> allowed != []
    ensures origin.Some? && origin.value in allowed ==> IsOriginAllowed(origin, allowed)
  {
    if |allowed| == 0 then false
    else if origin.None? || origin.value == "" then true
    else if "*" in allowed then true
    else AnyEntryMatches(origin.value, allowed)
  }

  lemma {:induction false} AnyEntryMatchesExists(origin: string, allowed: seq<string>)
    ensures AnyEntryMatches(origin, allowed)
      <==> exists i :: 0 <= i < |allowed| && (allowed[i] == origin || WildcardMatches(allowed[i], origin))
    decreases |allowed|
  {
    if allowed != [] {
      AnyEntryMatchesExists(origin, allowed[1..]);
      if AnyEntryMatches(origin, allowed[1..]) {
        var i :| 0 <= i < |allowed[1..]| && (allowed[1..][i] == origin || WildcardMatches(allowed[1..][i], origin));
        assert allowed[i + 1] == allowed[1..][i];
      }
      if exists i :: 0 <= i < |allowed| && (allowed[i] == origin || WildcardMatches(allowed[i], origin)) {
        var i :| 0 <= i < |allowed| && (allowed[i] == origin || WildcardMatches(allowed[i], origin));
        if i > 0 {
          assert allowed[1..][i - 1] == allowed[i];
        }
      }
    }
  }

  /** The server's decision (src/index.js:42-55): permissive CORS, which
      admits every origin, when no origin is configured; otherwise the
      `origin` callback, which admits a request without an Origin header
      and one `isOriginAllowed` accepts. */
  predicate Admits(origin: Option<string>, allowed: seq<string>)
    ensures allowed == [] ==> Admits(origin, allowed)
    ensures allowed != [] ==> (Admits(origin, allowed) <==> IsOriginAllowed(origin, allowed))
  {
    if allowed == [] then true
    else if origin.None? || origin.value == "" then true
    else IsOriginAllowed(origin, allowed)
  }

  /** The decision in full: an empty list refuses everything, even a
      missing origin; otherwise a missing origin, a `*` entry anywhere, an
      exact entry or a matching `*.suffix` entry admit, and nothing else
      does. */
  lemma OriginDecision(origin: Option<string>, allowed: seq<string>)
    ensures allowed == [] ==> !IsOriginAllowed(origin, allowed)
    ensures allowed != [] && (origin.None? || origin == Some("")) ==> IsOriginAllowed(origin, allowed)
    ensures allowed != [] && origin.Some? && origin.value != "" ==>
      (IsOriginAllowed(origin, allowed) <==>
        ("*" in allowed
         || exists i :: 0 <= i < |allowed| && (allowed[i] == origin.value || WildcardMatches(allowed[i], origin.value))))
  {
    if origin.Some? {
      AnyEntryMatchesExists(origin.value, allowed);
    }
  }

  /** The wildcard keeps its dot: `*.example.com` admits
      `https://shop.example.com` but not the bare `example.com`. */
  lemma WildcardNeedsSubdomain(suffix: string, sub: string)
    ensures WildcardMatches("*." + suffix, sub + "." + suffix)
    ensures !WildcardMatches("*." + suffix, suffix)
  {
    var a := "*." + suffix;
    assert a[..2] == "*.";
    assert a[1..] == "." + suffix;
    var o := sub + "." + suffix;
    assert o[|o| - |a[1..]|..] == "." + suffix;
  }
}
