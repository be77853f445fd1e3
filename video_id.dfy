/** The video-identifier extractor (`extractVideoId` in wsobs.js). The input is trimmed, then
    three regular expressions are tried in order and the first that matches anywhere in the
    trimmed string wins; failing all three, a token with no space and no slash that is longer
    than five characters is taken as the identifier itself, and otherwise there is none.

    Each regular expression is written out as a predicate saying where it matches and a scan
    that finds its leftmost match, which is what `String.prototype.match` reports for a pattern
    without the `g` flag. The quantifiers are greedy, as in JavaScript. */
module VideoId {
  import opened Wrappers

  // ---------------------------------------------------------------------------------------
  // Trimming

  /** The characters `String.prototype.trim` removes: ECMAScript WhiteSpace and LineTerminator. */
  predicate IsWhitespace(c: char) {
    c == '\t' || c == '\n' || c == '\U{B}' || c == '\U{C}' || c == '\r' || c == ' '
    || c == '\U{A0}' || c == '\U{1680}' || ('\U{2000}' <= c <= '\U{200A}')
    || c == '\U{2028}' || c == '\U{2029}' || c == '\U{202F}' || c == '\U{205F}'
    || c == '\U{3000}' || c == '\U{FEFF}'
  }

  /** The characters a regular-expression `.` does not match (no `s` flag is used). */
  const LineTerminators: set<char> := {'\n', '\r', '\U{2028}', '\U{2029}'}

  /** Number of whitespace characters `s` starts with. */
  function LeadingWs(s: string): (n: nat)
    ensures n <= |s|
    ensures forall i :: 0 <= i < n ==> IsWhitespace(s[i])
    ensures n < |s| ==> !IsWhitespace(s[n])
  {
    if s == [] || !IsWhitespace(s[0]) then 0 else 1 + LeadingWs(s[1..])
  }

  /** Number of whitespace characters `s` ends with. */
  function TrailingWs(s: string): (n: nat)
    ensures n <= |s|
    ensures forall i :: |s| - n <= i < |s| ==> IsWhitespace(s[i])
    ensures n < |s| ==> !IsWhitespace(s[|s| - 1 - n])
  {
    if s == [] || !IsWhitespace(s[|s| - 1]) then 0 else 1 + TrailingWs(s[..|s| - 1])
  }

  /** `t` is `s` with the whitespace before position `a` and after `a + |t|` removed. */
  ghost predicate IsTrimOf(s: string, t: string, a: nat) {
    a + |t| <= |s| && t == s[a..a + |t|]
    && (forall i :: 0 <= i < a ==> IsWhitespace(s[i]))
    && (forall i :: a + |t| <= i < |s| ==> IsWhitespace(s[i]))
  }

  /** `String.prototype.trim`: the longest infix that neither starts nor ends with whitespace. */
  function Trim(s: string): (t: string)
    ensures t == [] || (!IsWhitespace(t[0]) && !IsWhitespace(t[|t| - 1]))
    ensures exists a :: IsTrimOf(s, t, a)
  {
    var a := LeadingWs(s);
    var r := s[a..];
    var t := r[..|r| - TrailingWs(r)];
    assert IsTrimOf(s, t, a);
    t
  }

  /** Trimming twice is trimming once. */
  lemma TrimIdempotent(s: string)
    ensures Trim(Trim(s)) == Trim(s)
  {
    var t := Trim(s);
    assert LeadingWs(t) == 0;
    assert t[0..] == t;
    assert TrailingWs(t) == 0;
  }

  // ---------------------------------------------------------------------------------------
  // The three patterns

  /** `p` occurs in `s` at position `i`. */
  predicate HasAt(s: string, i: nat, p: string) {
    i + |p| <= |s| && s[i..i + |p|] == p
  }

  /** Where a greedy run of characters outside `stops` that starts at `k` ends: the extent of
      `[^&]+` (with `stops == {'&'}`), of `[^?]+` (with `{'?'}`) or of `.*` (with the line
      terminators). */
  function RunEnd(s: string, k: nat, stops: set<char>): (e: nat)
    requires k <= |s|
    ensures k <= e <= |s|
    ensures forall i :: k <= i < e ==> s[i] !in stops
    ensures e == |s| || s[e] in stops
    decreases |s| - k
  {
    if k == |s| || s[k] in stops then k else RunEnd(s, k + 1, stops)
  }

  /** `/[?&]v=([^&]+)/` matches at `i`: the capture starts at `i + 3` and is not empty. */
  predicate WatchAt(s: string, i: nat) {
    i + 3 < |s| && (s[i] == '?' || s[i] == '&') && s[i + 1] == 'v' && s[i + 2] == '=' && s[i + 3] != '&'
  }

  /** `/youtu\.be\/([^?]+)/` matches at `i`: the capture starts at `i + 9` and is not empty. */
  predicate ShortAt(s: string, i: nat) {
    HasAt(s, i, "youtu.be/") && i + 9 < |s| && s[i + 9] != '?'
  }

  /** The tail `v=([^&]+)` of the live-chat pattern matches at `j`. */
  predicate VeeAt(s: string, j: nat) {
    j + 2 < |s| && s[j] == 'v' && s[j + 1] == '=' && s[j + 2] != '&'
  }

  /** `/live_chat\?.*v=([^&]+)/` matches at `i` with its `.*` spanning `s[i + 10..j]`, which
      therefore holds no line terminator. */
  predicate LiveChatVia(s: string, i: nat, j: nat) {
    HasAt(s, i, "live_chat?") && i + 10 <= j && VeeAt(s, j)
    && (forall k :: i + 10 <= k < j ==> s[k] !in LineTerminators)
  }

  /** The largest `j` with `lo <= j < hi` where the tail `v=([^&]+)` matches. */
  function LastVee(s: string, lo: nat, hi: nat): (r: Option<nat>)
    ensures r.Some? ==> lo <= r.value < hi && VeeAt(s, r.value)
    ensures r.Some? ==> forall j :: r.value < j < hi ==> !VeeAt(s, j)
    ensures r.None? ==> forall j :: lo <= j < hi ==> !VeeAt(s, j)
    decreases hi
  {
    if hi <= lo then None
    else if VeeAt(s, hi - 1) then Some(hi - 1)
    else LastVee(s, lo, hi - 1)
  }

  /** Where the live-chat pattern tried at `i` places its `v=`: the greedy `.*` first runs up to
      the next line terminator and then backs off, so the LAST eligible `v=` is used. */
  function LiveChatVee(s: string, i: nat): (r: Option<nat>)
    ensures r.Some? ==> LiveChatVia(s, i, r.value)
    ensures r.Some? ==> forall j: nat :: r.value < j ==> !LiveChatVia(s, i, j)
    ensures r.None? ==> forall j: nat :: !LiveChatVia(s, i, j)
  {
    if !HasAt(s, i, "live_chat?") then None
    else
      var e := RunEnd(s, i + 10, LineTerminators);
      var r := LastVee(s, i + 10, e + 1);
      assert forall j: nat :: LiveChatVia(s, i, j) ==> j <= e;
      r
  }

  /** The three patterns, in the order they are tried. */
  datatype Rule = Watch | LiveChat | Short

  predicate MatchesAt(rule: Rule, s: string, i: nat) {
    match rule
    case Watch => WatchAt(s, i)
    case LiveChat => LiveChatVee(s, i).Some?
    case Short => ShortAt(s, i)
  }

  /** The leftmost position at or after `from` where `rule` matches. */
  function Leftmost(rule: Rule, s: string, from: nat): (r: Option<nat>)
    ensures r.Some? ==> from <= r.value < |s| && MatchesAt(rule, s, r.value)
    ensures r.Some? ==> forall i: nat :: from <= i < r.value ==> !MatchesAt(rule, s, i)
    ensures r.None? ==> forall i: nat :: from <= i ==> !MatchesAt(rule, s, i)
    decreases |s| - from
  {
    if from >= |s| then
      assert forall i: nat :: from <= i ==> !MatchesAt(rule, s, i) by {
        forall i: nat | from <= i ensures !MatchesAt(rule, s, i) {
          assert !HasAt(s, i, "live_chat?");
        }
      }
      None
    else if MatchesAt(rule, s, from) then Some(from)
    else Leftmost(rule, s, from + 1)
  }

  // ---------------------------------------------------------------------------------------
  // The cascade

  ghost predicate NoWatch(t: string) { forall i: nat :: !WatchAt(t, i) }
  ghost predicate NoLiveChat(t: string) { forall i: nat, j: nat :: !LiveChatVia(t, i, j) }
  ghost predicate NoShort(t: string) { forall i: nat :: !ShortAt(t, i) }

  /** The watch pattern matches at `at` and nowhere before. */
  ghost predicate FirstWatch(t: string, at: nat) {
    WatchAt(t, at) && forall i: nat :: i < at ==> !WatchAt(t, i)
  }

  /** The live-chat pattern matches at `at` and nowhere before, and `vee` is the last position
      its `v=` can take when it is tried at `at`. */
  ghost predicate FirstLiveChat(t: string, at: nat, vee: nat) {
    LiveChatVia(t, at, vee)
    && (forall i: nat, j: nat :: i < at ==> !LiveChatVia(t, i, j))
    && (forall j: nat :: vee < j ==> !LiveChatVia(t, at, j))
  }

  /** The short-link pattern matches at `at` and nowhere before. */
  ghost predicate FirstShort(t: string, at: nat) {
    ShortAt(t, at) && forall i: nat :: i < at ==> !ShortAt(t, i)
  }

  lemma WatchScan(t: string)
    ensures Leftmost(Watch, t, 0).Some? ==> FirstWatch(t, Leftmost(Watch, t, 0).value)
    ensures Leftmost(Watch, t, 0).None? ==> NoWatch(t)
  {
    var r := Leftmost(Watch, t, 0);
    forall i: nat | r.None? || i < r.value ensures !WatchAt(t, i) {
      assert !MatchesAt(Watch, t, i);
    }
  }

  lemma LiveChatScan(t: string)
    ensures Leftmost(LiveChat, t, 0).Some? ==>
              var at := Leftmost(LiveChat, t, 0).value;
              FirstLiveChat(t, at, LiveChatVee(t, at).value)
    ensures Leftmost(LiveChat, t, 0).None? ==> NoLiveChat(t)
  {
    var r := Leftmost(LiveChat, t, 0);
    forall i: nat, j: nat | r.None? || i < r.value ensures !LiveChatVia(t, i, j) {
      assert !MatchesAt(LiveChat, t, i);
    }
  }

  lemma ShortScan(t: string)
    ensures Leftmost(Short, t, 0).Some? ==> FirstShort(t, Leftmost(Short, t, 0).value)
    ensures Leftmost(Short, t, 0).None? ==> NoShort(t)
  {
    var r := Leftmost(Short, t, 0);
    forall i: nat | r.None? || i < r.value ensures !ShortAt(t, i) {
      assert !MatchesAt(Short, t, i);
    }
  }

  /** The group a greedy `([^...]+)` starting at `k` captures; it is empty only when the
      character at `k` is missing or a stop character. */
  function Capture(t: string, k: nat, stops: set<char>): (r: string)
    requires k <= |t|
    ensures forall c :: c in r ==> c !in stops
    ensures k < |t| && t[k] !in stops ==> r != []
  {
    t[k..RunEnd(t, k, stops)]
  }

  /** The fallback test: no space, no slash and more than five characters. */
  predicate LooksLikeId(t: string) {
    ' ' !in t && '/' !in t && |t| > 5
  }

  /** Which rule decides a trimmed input, where it matched, and what it captured. */
  datatype Match =
    | ByWatch(at: nat, id: string)
    | ByLiveChat(at: nat, vee: nat, id: string)
    | ByShort(at: nat, id: string)
    | Bare(id: string)
    | NoId

  /** The first-match-wins cascade on a trimmed input. Each rule is used only when the rules
      before it match nowhere, it is used at its leftmost match, and its capture is the greedy
      run that follows; the live-chat rule takes its last eligible `v=`. */
  function Classify(t: string): (m: Match)
    ensures m.ByWatch? ==> FirstWatch(t, m.at) && m.id == Capture(t, m.at + 3, {'&'})
    ensures m.ByLiveChat? ==>
              NoWatch(t) && FirstLiveChat(t, m.at, m.vee) && m.id == Capture(t, m.vee + 2, {'&'})
    ensures m.ByShort? ==>
              NoWatch(t) && NoLiveChat(t) && FirstShort(t, m.at) && m.id == Capture(t, m.at + 9, {'?'})
    ensures m.Bare? ==> NoWatch(t) && NoLiveChat(t) && NoShort(t) && LooksLikeId(t) && m.id == t
    ensures m.NoId? ==> NoWatch(t) && NoLiveChat(t) && NoShort(t) && !LooksLikeId(t)
  {
    WatchScan(t);
    match Leftmost(Watch, t, 0)
    case Some(i) => ByWatch(i, Capture(t, i + 3, {'&'}))
    case None =>
      LiveChatScan(t);
      match Leftmost(LiveChat, t, 0)
      case Some(i) =>
        var j := LiveChatVee(t, i).value;
        ByLiveChat(i, j, Capture(t, j + 2, {'&'}))
      case None =>
        ShortScan(t);
        match Leftmost(Short, t, 0)
        case Some(i) => ByShort(i, Capture(t, i + 9, {'?'}))
        case None => if LooksLikeId(t) then Bare(t) else NoId
  }

  /** `extractVideoId`: `''` for an empty input; otherwise the cascade applied to the trimmed
      input. The result is empty exactly when no rule decides, every capture is non-empty, the
      watch and live-chat captures hold no `&` and the short-link capture no `?`. */
  function ExtractVideoId(url: string): (r: string)
    ensures url == "" ==> r == ""
    ensures r == "" <==> Classify(Trim(url)).NoId?
    ensures (Classify(Trim(url)).ByWatch? || Classify(Trim(url)).ByLiveChat?) ==> '&' !in r
    ensures Classify(Trim(url)).ByShort? ==> '?' !in r
    ensures Classify(Trim(url)).Bare? ==> r == Trim(url)
  {
    if url == "" then ""
    else
      match Classify(Trim(url))
      case ByWatch(_, id) => id
      case ByLiveChat(_, _, id) => id
      case ByShort(_, id) => id
      case Bare(id) => id
      case NoId => ""
  }

  /** Every rule, including the length test of the fallback, sees the trimmed input: surrounding
      whitespace never changes the result. */
  lemma ExtractIgnoresSurroundingWhitespace(url: string)
    ensures ExtractVideoId(Trim(url)) == ExtractVideoId(url)
  {
    TrimIdempotent(url);
    if url != "" && Trim(url) == "" {
      assert !LooksLikeId(Trim(url));
    }
  }
}
