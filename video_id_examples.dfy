/** Worked inputs for `extractVideoId`: one per rule of the cascade, the greedy live-chat
    pattern, the fallback, surrounding whitespace, and two inputs that yield no identifier. */
module VideoIdExamples {
  import opened VideoId

  // ---------------------------------------------------------------------------------------
  // Small facts the examples share

  /** An input that neither starts nor ends with whitespace is its own trim. */
  lemma NoSurroundingWhitespace(t: string)
    requires t != [] && !IsWhitespace(t[0]) && !IsWhitespace(t[|t| - 1])
    ensures Trim(t) == t
  {
    assert LeadingWs(t) == 0;
    assert t[0..] == t;
    assert TrailingWs(t) == 0;
  }

  /** The watch pattern cannot match where no `?` or `&` is followed by a `v`. */
  lemma NoWatchByMarkers(t: string)
    requires forall i :: 0 <= i < |t| - 1 && (t[i] == '?' || t[i] == '&') ==> t[i + 1] != 'v'
    ensures NoWatch(t)
  {
    forall i: nat | WatchAt(t, i) ensures t[i + 1] == 'v' {}
  }

  /** Without `_` the live-chat pattern cannot match (`live_chat?` holds one). */
  lemma NoLiveChatWithoutUnderscore(t: string)
    requires forall i :: 0 <= i < |t| ==> t[i] != '_'
    ensures NoLiveChat(t)
  {
    forall i: nat ensures !HasAt(t, i, "live_chat?") {
      if i + 10 <= |t| {
        assert t[i..i + 10][4] == t[i + 4] != '_';
      }
    }
  }

  /** Without `.` from position `lo + 5` on, the short-link pattern cannot match at or after
      `lo` (`youtu.be/` holds a `.` five characters in). */
  lemma NoShortWithoutDot(t: string, lo: nat, hi: nat)
    requires forall i :: lo + 5 <= i < hi + 5 && i < |t| ==> t[i] != '.'
    ensures forall i: nat :: lo <= i < hi ==> !ShortAt(t, i)
  {
    forall i: nat | lo <= i < hi ensures !HasAt(t, i, "youtu.be/") {
      if i + 9 <= |t| {
        assert t[i..i + 9][5] == t[i + 5] != '.';
      }
    }
  }

  /** A run of non-stop characters from `k` up to a stop character at `e` (or the end) is
      exactly the capture. */
  lemma CaptureUpTo(t: string, k: nat, e: nat, stops: set<char>)
    requires k <= e <= |t|
    requires forall i :: k <= i < e ==> t[i] !in stops
    requires e == |t| || t[e] in stops
    ensures Capture(t, k, stops) == t[k..e]
  {
    var r := RunEnd(t, k, stops);
    assert r == e;
  }

  /** The leftmost live-chat match and its last `v=` are unique. */
  lemma FirstLiveChatUnique(t: string, at: nat, vee: nat, at': nat, vee': nat)
    requires FirstLiveChat(t, at, vee) && FirstLiveChat(t, at', vee')
    ensures at == at' && vee == vee'
  {
  }

  // ---------------------------------------------------------------------------------------
  // Which rule decides, stated without any particular input

  lemma WatchDecides(t: string, at: nat, e: nat)
    requires Trim(t) == t && FirstWatch(t, at)
    requires at + 3 <= e <= |t| && (forall i :: at + 3 <= i < e ==> t[i] != '&')
    requires e == |t| || t[e] == '&'
    ensures ExtractVideoId(t) == t[at + 3..e]
  {
    var m := Classify(t);
    assert m.ByWatch?;
    CaptureUpTo(t, at + 3, e, {'&'});
  }

  lemma LiveChatDecides(t: string, at: nat, vee: nat, e: nat)
    requires Trim(t) == t && NoWatch(t) && FirstLiveChat(t, at, vee)
    requires vee + 2 <= e <= |t| && (forall i :: vee + 2 <= i < e ==> t[i] != '&')
    requires e == |t| || t[e] == '&'
    ensures ExtractVideoId(t) == t[vee + 2..e]
  {
    var m := Classify(t);
    assert m.ByLiveChat?;
    FirstLiveChatUnique(t, at, vee, m.at, m.vee);
    CaptureUpTo(t, vee + 2, e, {'&'});
  }

  lemma ShortDecides(t: string, at: nat, e: nat)
    requires Trim(t) == t && NoWatch(t) && NoLiveChat(t) && FirstShort(t, at)
    requires at + 9 <= e <= |t| && (forall i :: at + 9 <= i < e ==> t[i] != '?')
    requires e == |t| || t[e] == '?'
    ensures ExtractVideoId(t) == t[at + 9..e]
  {
    var m := Classify(t);
    assert m.ByShort?;
    CaptureUpTo(t, at + 9, e, {'?'});
  }

  lemma BareDecides(url: string)
    requires NoWatch(Trim(url)) && NoLiveChat(Trim(url)) && NoShort(Trim(url))
    requires LooksLikeId(Trim(url))
    ensures ExtractVideoId(url) == Trim(url)
  {
  }

  lemma NothingDecides(url: string)
    requires NoWatch(Trim(url)) && NoLiveChat(Trim(url)) && NoShort(Trim(url))
    requires !LooksLikeId(Trim(url))
    ensures ExtractVideoId(url) == ""
  {
  }

  // ---------------------------------------------------------------------------------------
  // The watch rule

  lemma WatchLinkChars(t: string)
    requires t == "https://x/watch?v=AbC123"
    ensures !IsWhitespace(t[0]) && !IsWhitespace(t[|t| - 1])
    ensures WatchAt(t, 15)
    ensures forall i :: 0 <= i < 15 ==> t[i] != '?' && t[i] != '&'
    ensures forall i :: 18 <= i < |t| ==> t[i] != '&'
    ensures t[18..] == "AbC123"
  {
  }

  /** A watch link yields its `v` parameter. */
  lemma WatchLink(t: string)
    requires t == "https://x/watch?v=AbC123"
    ensures ExtractVideoId(t) == "AbC123"
  {
    WatchLinkChars(t);
    NoSurroundingWhitespace(t);
    WatchDecides(t, 15, |t|);
  }

  // ---------------------------------------------------------------------------------------
  // The live-chat rule, whose `.*` is greedy

  lemma LiveChatChars(t: string)
    requires t == "live_chat? v=AA v=BB"
    ensures !IsWhitespace(t[0]) && !IsWhitespace(t[|t| - 1])
    ensures forall i :: 0 <= i < |t| - 1 && (t[i] == '?' || t[i] == '&') ==> t[i + 1] != 'v'
    ensures HasAt(t, 0, "live_chat?") && VeeAt(t, 16)
    ensures forall k :: 10 <= k < 16 ==> t[k] !in LineTerminators
    ensures |t| == 20 && t[17] != 'v'
    ensures forall i :: 18 <= i < |t| ==> t[i] != '&'
    ensures t[18..] == "BB"
  {
    assert t[..10] == "live_chat?";
  }

  /** When there are several `v=` after `live_chat?`, the LAST one on the line is used. */
  lemma LiveChatTakesLastVee(t: string)
    requires t == "live_chat? v=AA v=BB"
    ensures ExtractVideoId(t) == "BB"
  {
    LiveChatChars(t);
    NoSurroundingWhitespace(t);
    NoWatchByMarkers(t);
    forall j: nat | 16 < j ensures !LiveChatVia(t, 0, j) {
      assert !VeeAt(t, j);
    }
    assert FirstLiveChat(t, 0, 16);
    LiveChatDecides(t, 0, 16, |t|);
  }

  // ---------------------------------------------------------------------------------------
  // The short-link rule

  lemma ShortLinkChars(t: string)
    requires t == "https://youtu.be/AbC123?t=5"
    ensures !IsWhitespace(t[0]) && !IsWhitespace(t[|t| - 1])
    ensures forall i :: 0 <= i < |t| - 1 && (t[i] == '?' || t[i] == '&') ==> t[i + 1] != 'v'
    ensures forall i :: 0 <= i < |t| ==> t[i] != '_'
    ensures forall i :: 5 <= i < 13 ==> t[i] != '.'
    ensures ShortAt(t, 8)
    ensures forall i :: 17 <= i < 23 ==> t[i] != '?'
    ensures t[23] == '?' && t[17..23] == "AbC123"
  {
    assert t[8..17] == "youtu.be/";
  }

  /** A short link yields its path up to the query string. */
  lemma ShortLink(t: string)
    requires t == "https://youtu.be/AbC123?t=5"
    ensures ExtractVideoId(t) == "AbC123"
  {
    ShortLinkChars(t);
    NoSurroundingWhitespace(t);
    NoWatchByMarkers(t);
    NoLiveChatWithoutUnderscore(t);
    NoShortWithoutDot(t, 0, 8);
    ShortDecides(t, 8, 23);
  }

  // ---------------------------------------------------------------------------------------
  // The fallback and the empty result

  lemma BareIdTrim(url: string)
    requires url == "  dQw4w9WgXcQ  "
    ensures Trim(url) == "dQw4w9WgXcQ"
  {
    var t := Trim(url);
    var a :| IsTrimOf(url, t, a);
    assert url[2] == 'd';
    assert a == 2;
    assert url[12] == 'Q';
    assert |t| == 11;
  }

  lemma BareIdChars(t: string)
    requires t == "dQw4w9WgXcQ"
    ensures forall i :: 0 <= i < |t| ==> t[i] !in {'?', '&', '_', '.', ' ', '/'}
    ensures |t| > 5
  {
  }

  /** A bare token is its own identifier, with the surrounding whitespace trimmed off. */
  lemma BareIdTrimmed(url: string)
    requires url == "  dQw4w9WgXcQ  "
    ensures ExtractVideoId(url) == "dQw4w9WgXcQ"
  {
    BareIdTrim(url);
    var t := Trim(url);
    BareIdChars(t);
    NoWatchByMarkers(t);
    NoLiveChatWithoutUnderscore(t);
    NoShortWithoutDot(t, 0, |t|);
    assert ' ' !in t && '/' !in t;
    BareDecides(url);
  }

  lemma OtherHostChars(t: string)
    requires t == "https://y/AbC123"
    ensures !IsWhitespace(t[0]) && !IsWhitespace(t[|t| - 1])
    ensures forall i :: 0 <= i < |t| ==> t[i] !in {'?', '&', '_', '.'}
    ensures t[6] == '/'
  {
  }

  /** A path that is not a short link holds a `/` and so is not a bare token either. */
  lemma OtherHostHasNoId(t: string)
    requires t == "https://y/AbC123"
    ensures ExtractVideoId(t) == ""
  {
    OtherHostChars(t);
    NoSurroundingWhitespace(t);
    NoWatchByMarkers(t);
    NoLiveChatWithoutUnderscore(t);
    NoShortWithoutDot(t, 0, |t|);
    NothingDecides(t);
  }

  lemma TextChars(t: string)
    requires t == "hello world"
    ensures !IsWhitespace(t[0]) && !IsWhitespace(t[|t| - 1])
    ensures forall i :: 0 <= i < |t| ==> t[i] !in {'?', '&', '_', '.'}
    ensures t[5] == ' '
  {
  }

  /** Text with a space is not an identifier. */
  lemma TextHasNoId(t: string)
    requires t == "hello world"
    ensures ExtractVideoId(t) == ""
  {
    TextChars(t);
    NoSurroundingWhitespace(t);
    NoWatchByMarkers(t);
    NoLiveChatWithoutUnderscore(t);
    NoShortWithoutDot(t, 0, |t|);
    NothingDecides(t);
  }
}
