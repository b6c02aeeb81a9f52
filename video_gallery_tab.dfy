/**
 * The video tab of the dashboard: the YouTube-link matcher that turns a
 * pasted URL into an embed URL and a thumbnail, the video form, and the local
 * video list. The list is also handed to `updateVideos`, a storage call the
 * storage service does not define; the model records each list handed to it
 * in `sent` and gives it no other meaning.
 */
module VideoDashboard {
  import opened Wrappers
  import Storage
  import Seqs
  import opened Gallery

  // ---------------------------------------------------------------------
  // The id pattern, matched by hand. It is anchored at the start, skips any
  // text greedily, then needs one of six markers ("youtu", any character,
  // "be/"; "v/"; "u/", a word character, "/"; "embed/"; "watch?v="; "&v=")
  // and captures the following run of characters other than '#', '&' and
  // '?'. The greedy skip cannot cross a line terminator and backs off one
  // character at a time, so the marker used is the LAST one that starts at
  // or before the first line terminator.
  // ---------------------------------------------------------------------

  /** The characters JavaScript's `.` does not match. */
  predicate IsLineTerminator(c: char)
  {
    c == '\n' || c == '\r' || c == '\U{2028}' || c == '\U{2029}'
  }

  /** `\w`. */
  predicate IsWordChar(c: char)
  {
    ('a' <= c <= 'z') || ('A' <= c <= 'Z') || ('0' <= c <= '9') || c == '_'
  }

  /** The characters `[^#&?]` excludes. */
  predicate IsIdStop(c: char)
  {
    c == '#' || c == '&' || c == '?'
  }

  /** How far `^.*` can reach: the index of the first line terminator, or the length. */
  function FirstLineEnd(s: string): (r: nat)
    ensures r <= |s|
    ensures r < |s| ==> IsLineTerminator(s[r])
    ensures forall i :: 0 <= i < r ==> !IsLineTerminator(s[i])
  {
    if |s| == 0 || IsLineTerminator(s[0]) then 0 else 1 + FirstLineEnd(s[1..])
  }

  predicate HasAt(s: string, p: nat, lit: string)
  {
    p + |lit| <= |s| && s[p..p + |lit|] == lit
  }

  /** The end of the alternative of the first group that matches at `p`, if one does. */
  function MarkerEnd(s: string, p: nat): (r: Option<nat>)
    ensures r.Some? ==> p < r.value <= |s|
  {
    if p + 9 <= |s| && s[p..p + 5] == "youtu" && !IsLineTerminator(s[p + 5]) && s[p + 6..p + 9] == "be/" then Some(p + 9)
    else if HasAt(s, p, "v/") then Some(p + 2)
    else if p + 4 <= |s| && s[p..p + 2] == "u/" && IsWordChar(s[p + 2]) && s[p + 3] == '/' then Some(p + 4)
    else if HasAt(s, p, "embed/") then Some(p + 6)
    else if HasAt(s, p, "watch?v=") then Some(p + 8)
    else if HasAt(s, p, "&v=") then Some(p + 3)
    else None
  }

  /** The largest position at or below `p` where a marker starts. */
  function LastMarker(s: string, p: nat): (r: Option<nat>)
    ensures r.Some? ==> r.value <= p && MarkerEnd(s, r.value).Some?
    ensures r.Some? ==> forall j :: r.value < j <= p ==> MarkerEnd(s, j).None?
    ensures r.None? <==> forall j :: 0 <= j <= p ==> MarkerEnd(s, j).None?
  {
    if MarkerEnd(s, p).Some? then Some(p)
    else if p == 0 then None
    else LastMarker(s, p - 1)
  }

  /** The end of the longest run from `q` free of '#', '&' and '?'. */
  function RunEnd(s: string, q: nat): (e: nat)
    requires q <= |s|
    ensures q <= e <= |s|
    ensures forall i :: q <= i < e ==> !IsIdStop(s[i])
    ensures e < |s| ==> IsIdStop(s[e])
    decreases |s| - q
  {
    if q == |s| || IsIdStop(s[q]) then q else RunEnd(s, q + 1)
  }

  /** Where the marker and the captured id lie when the pattern matches. */
  datatype YoutubeMatch = YoutubeMatch(markerStart: nat, idStart: nat, idEnd: nat)

  /** `url.match(regExp)`, reduced to the positions of the marker and of the second group. */
  function MatchYoutube(url: string): (m: Option<YoutubeMatch>)
    ensures m.None? <==> forall j :: 0 <= j <= FirstLineEnd(url) ==> MarkerEnd(url, j).None?
    ensures m.Some? ==>
      && m.value.markerStart <= FirstLineEnd(url)
      && MarkerEnd(url, m.value.markerStart) == Some(m.value.idStart)
      && (forall j :: m.value.markerStart < j <= FirstLineEnd(url) ==> MarkerEnd(url, j).None?)
      && m.value.idStart <= m.value.idEnd <= |url|
      && (forall i :: m.value.idStart <= i < m.value.idEnd ==> !IsIdStop(url[i]))
      && (m.value.idEnd < |url| ==> IsIdStop(url[m.value.idEnd]))
  {
    match LastMarker(url, FirstLineEnd(url))
    case None => None
    case Some(p) =>
      var q := MarkerEnd(url, p).value;
      Some(YoutubeMatch(p, q, RunEnd(url, q)))
  }

  /** `extractYoutubeVideoId`: the captured id when it is exactly 11 characters long. */
  function ExtractYoutubeVideoId(url: string): (r: Option<string>)
    ensures r.Some? <==> MatchYoutube(url).Some? && MatchYoutube(url).value.idEnd - MatchYoutube(url).value.idStart == 11
    ensures r.Some? ==> r.value == url[MatchYoutube(url).value.idStart..MatchYoutube(url).value.idEnd]
    ensures r.Some? ==> |r.value| == 11 && forall i :: 0 <= i < |r.value| ==> !IsIdStop(r.value[i])
  {
    match MatchYoutube(url)
    case None => None
    case Some(m) => if m.idEnd - m.idStart == 11 then Some(url[m.idStart..m.idEnd]) else None
  }

  /** The match is fixed by the last marker before the first line terminator. */
  lemma MatchIsLastMarker(url: string, p: nat)
    requires p <= FirstLineEnd(url) && MarkerEnd(url, p).Some?
    requires forall j :: p < j <= FirstLineEnd(url) ==> MarkerEnd(url, j).None?
    ensures MatchYoutube(url) == Some(YoutubeMatch(p, MarkerEnd(url, p).value, RunEnd(url, MarkerEnd(url, p).value)))
  {
    var last := LastMarker(url, FirstLineEnd(url));
    assert last.Some?;
    assert last.value == p;
  }

  lemma LiteralHead(s: string, p: nat, lit: string)
    requires HasAt(s, p, lit) && |lit| > 1
    ensures s[p] == lit[0] && s[p + 1] == lit[1]
  {
    assert s[p..p + |lit|][0] == s[p];
    assert s[p..p + |lit|][1] == s[p + 1];
  }

  /** Every marker starts with one of six characters, each always followed by a fixed one. */
  lemma MarkerHead(s: string, p: nat)
    ensures MarkerEnd(s, p).Some? ==>
      && p + 1 < |s| && s[p] in "yvuew&"
      && (s[p] == 'y' ==> s[p + 1] == 'o')
      && (s[p] == 'v' ==> s[p + 1] == '/')
      && (s[p] == '&' ==> s[p + 1] == 'v')
      && (s[p] == 'u' ==> s[p + 1] == '/')
      && (s[p] == 'e' ==> s[p + 1] == 'm')
      && (s[p] == 'w' ==> s[p + 1] == 'a')
  {
    if p + 9 <= |s| && s[p..p + 5] == "youtu" && !IsLineTerminator(s[p + 5]) && s[p + 6..p + 9] == "be/" {
      assert s[p..p + 5][0] == s[p] && s[p..p + 5][1] == s[p + 1];
    } else if HasAt(s, p, "v/") {
      LiteralHead(s, p, "v/");
    } else if p + 4 <= |s| && s[p..p + 2] == "u/" && IsWordChar(s[p + 2]) && s[p + 3] == '/' {
      assert s[p..p + 2][0] == s[p] && s[p..p + 2][1] == s[p + 1];
    } else if HasAt(s, p, "embed/") {
      LiteralHead(s, p, "embed/");
    } else if HasAt(s, p, "watch?v=") {
      LiteralHead(s, p, "watch?v=");
    } else if HasAt(s, p, "&v=") {
      LiteralHead(s, p, "&v=");
    }
  }

  /** Every marker ends in '/' or in "v=". */
  lemma MarkerLast(s: string, p: nat)
    ensures MarkerEnd(s, p).Some? ==>
      var q := MarkerEnd(s, p).value;
      s[q - 1] == '/' || (s[q - 1] == '=' && q >= 2 && s[q - 2] == 'v')
  {
    if p + 9 <= |s| && s[p..p + 5] == "youtu" && !IsLineTerminator(s[p + 5]) && s[p + 6..p + 9] == "be/" {
      assert s[p + 6..p + 9][2] == s[p + 8];
    } else if HasAt(s, p, "v/") {
      LiteralLast(s, p, "v/");
    } else if p + 4 <= |s| && s[p..p + 2] == "u/" && IsWordChar(s[p + 2]) && s[p + 3] == '/' {
    } else if HasAt(s, p, "embed/") {
      LiteralLast(s, p, "embed/");
    } else if HasAt(s, p, "watch?v=") {
      LiteralLast(s, p, "watch?v=");
    } else if HasAt(s, p, "&v=") {
      LiteralLast(s, p, "&v=");
    }
  }

  lemma LiteralLast(s: string, p: nat, lit: string)
    requires HasAt(s, p, lit) && |lit| > 1
    ensures s[p + |lit| - 1] == lit[|lit| - 1] && s[p + |lit| - 2] == lit[|lit| - 2]
  {
    assert s[p..p + |lit|][|lit| - 1] == s[p + |lit| - 1];
    assert s[p..p + |lit|][|lit| - 2] == s[p + |lit| - 2];
  }

  /**
   * An 11-character run the id group can capture and that cannot hold a
   * marker end: no '#', '&' or '?', no line terminator, no '/' and no "v=".
   * The ids YouTube hands out (word characters and '-') are all of this kind.
   */
  predicate IsPlainId(id: string)
  {
    && |id| == 11
    && (forall i :: 0 <= i < |id| ==> !IsIdStop(id[i]) && !IsLineTerminator(id[i]) && id[i] != '/')
    && (forall i :: 0 < i < |id| ==> id[i] == '=' ==> id[i - 1] != 'v')
  }

  /**
   * What may follow the id in a link: nothing, or a '#', '&' or '?' and then
   * text with no line terminator and no marker end ('/' or "v=").
   */
  predicate IsLinkTail(tail: string)
  {
    && (tail == [] || IsIdStop(tail[0]))
    && (forall k :: 0 <= k < |tail| ==> !IsLineTerminator(tail[k]) && tail[k] != '/')
    && (forall k :: 0 < k < |tail| ==> tail[k] == '=' ==> tail[k - 1] != 'v')
  }

  /**
   * A link made of a prefix whose last marker ends the prefix, an id and a
   * tail yields the id.
   */
  lemma LinkYieldsId(pre: string, id: string, tail: string, p: nat)
    requires p < |pre| && MarkerEnd(pre + id + tail, p) == Some(|pre|)
    requires forall j :: p < j < |pre| ==> MarkerEnd(pre + id + tail, j).None?
    requires forall i :: 0 <= i < |pre| ==> !IsLineTerminator(pre[i])
    requires IsPlainId(id) && IsLinkTail(tail)
    ensures ExtractYoutubeVideoId(pre + id + tail) == Some(id)
  {
    var u := pre + id + tail;
    var n := |pre|;
    assert forall i :: n <= i < n + 11 ==> u[i] == id[i - n];
    assert forall i :: n + 11 <= i < |u| ==> u[i] == tail[i - n - 11];
    OneLine(pre, id, tail);
    MarkerLast(u, p);
    assert u[n - 1] == pre[n - 1];
    NoMarkerAfter(pre, id, tail);
    MatchIsLastMarker(u, p);
    assert RunEnd(u, n) == n + 11 by {
      assert forall i :: n <= i < n + 11 ==> !IsIdStop(u[i]);
      assert n + 11 < |u| ==> IsIdStop(u[n + 11]);
    }
    assert u[n..n + 11] == id;
  }

  /** A link made of a one-line prefix, an id and a tail has no line terminator. */
  lemma OneLine(pre: string, id: string, tail: string)
    requires forall i :: 0 <= i < |pre| ==> !IsLineTerminator(pre[i])
    requires IsPlainId(id) && IsLinkTail(tail)
    ensures FirstLineEnd(pre + id + tail) == |pre + id + tail|
  {
    var u := pre + id + tail;
    var n := |pre|;
    forall i | 0 <= i < |u|
      ensures !IsLineTerminator(u[i])
    {
      if i < n {
        assert u[i] == pre[i];
      } else if i < n + 11 {
        assert u[i] == id[i - n];
      } else {
        assert u[i] == tail[i - n - 11];
      }
    }
  }

  /** No marker starts from the end of the prefix on, when the prefix does not end in 'v'. */
  lemma NoMarkerAfter(pre: string, id: string, tail: string)
    requires |pre| > 0 && pre[|pre| - 1] != 'v'
    requires IsPlainId(id) && IsLinkTail(tail)
    ensures forall j :: |pre| <= j <= |pre + id + tail| ==> MarkerEnd(pre + id + tail, j).None?
  {
    var u := pre + id + tail;
    var n := |pre|;
    forall k | n <= k < |u|
      ensures u[k] != '/' && (u[k] == '=' ==> u[k - 1] != 'v')
    {
      if k == n {
        assert u[k] == id[0] && u[k - 1] == pre[n - 1];
      } else if k < n + 11 {
        assert u[k] == id[k - n] && u[k - 1] == id[k - 1 - n];
      } else if k == n + 11 {
        assert u[k] == tail[0];
        assert IsIdStop(tail[0]);
      } else {
        assert u[k] == tail[k - n - 11];
        assert u[k - 1] == tail[k - 1 - n - 11];
      }
    }
    forall j | n <= j <= |u|
      ensures MarkerEnd(u, j).None?
    {
      MarkerLast(u, j);
    }
  }

  /**
   * A short link yields its id when the id is plain and what follows it is
   * a link tail (nothing, or '#', '&' or '?' and then no '/', "v=" or line
   * break).
   */
  lemma ShortLinkYieldsId(id: string, tail: string)
    requires IsPlainId(id) && IsLinkTail(tail)
    ensures ExtractYoutubeVideoId("https://youtu.be/" + id + tail) == Some(id)
  {
    var pre := "https://youtu.be/";
    var u := pre + id + tail;
    assert forall i :: 0 <= i < |pre| ==> !IsLineTerminator(pre[i]);
    assert forall i :: 0 <= i < |pre| ==> u[i] == pre[i];
    assert u[8..13] == "youtu" && u[14..17] == "be/";
    forall j | 8 < j < |pre|
      ensures MarkerEnd(u, j).None?
    {
      MarkerHead(u, j);
    }
    LinkYieldsId(pre, id, tail, 8);
  }

  /** A watch link yields its id, for a plain id and a link tail. */
  lemma WatchLinkYieldsId(id: string, tail: string)
    requires IsPlainId(id) && IsLinkTail(tail)
    ensures ExtractYoutubeVideoId("https://www.youtube.com/watch?v=" + id + tail) == Some(id)
  {
    var host, path := "https://www.youtube.com/", "watch?v=";
    assert host + path == "https://www.youtube.com/watch?v=";
    HostPathLinkYieldsId(host, path, id, tail);
  }

  /**
   * An embed link with a plain id yields that id, so pasting back an embed
   * URL the handler built from a plain id gives the same URL.
   */
  lemma EmbedLinkYieldsId(id: string)
    requires IsPlainId(id)
    ensures ExtractYoutubeVideoId(EmbedPrefix + id) == Some(id)
  {
    var host, path := "https://www.youtube.com/", "embed/";
    assert host + path == EmbedPrefix;
    assert EmbedPrefix + id == host + path + id + [];
    HostPathLinkYieldsId(host, path, id, []);
  }

  /** A link on the youtube.com host whose path is a watch or embed marker yields its id. */
  lemma HostPathLinkYieldsId(host: string, path: string, id: string, tail: string)
    requires host == "https://www.youtube.com/" && (path == "watch?v=" || path == "embed/")
    requires IsPlainId(id) && IsLinkTail(tail)
    ensures ExtractYoutubeVideoId(host + path + id + tail) == Some(id)
  {
    var pre := host + path;
    var u := pre + id + tail;
    HostLine(host);
    PathLine(path);
    forall i | 0 <= i < |pre|
      ensures !IsLineTerminator(pre[i])
    {
      if i < 24 {
        assert pre[i] == host[i];
      } else {
        assert pre[i] == path[i - 24];
      }
    }
    assert u[24..24 + |path|] == path by {
      assert u[..|pre|] == pre;
      assert pre[24..] == path;
    }
    MarkerAfterHost(u, path);
    LinkYieldsId(pre, id, tail, 24);
  }

  lemma HostLine(host: string)
    requires host == "https://www.youtube.com/"
    ensures |host| == 24 && forall i :: 0 <= i < |host| ==> !IsLineTerminator(host[i])
  {
    var a, b := "https://www.", "youtube.com/";
    assert host == a + b;
    assert forall i :: 0 <= i < |a| ==> !IsLineTerminator(a[i]);
    assert forall i :: 0 <= i < |b| ==> !IsLineTerminator(b[i]);
    forall i | 0 <= i < |host|
      ensures !IsLineTerminator(host[i])
    {
      if i < 12 {
        assert host[i] == a[i];
      } else {
        assert host[i] == b[i - 12];
      }
    }
  }

  lemma PathLine(path: string)
    requires path == "watch?v=" || path == "embed/"
    ensures forall i :: 0 <= i < |path| ==> !IsLineTerminator(path[i])
  {
  }

  /** The watch or embed marker right after the host is the only marker inside itself. */
  lemma MarkerAfterHost(u: string, path: string)
    requires path == "watch?v=" || path == "embed/"
    requires 24 + |path| <= |u| && u[24..24 + |path|] == path
    ensures MarkerEnd(u, 24) == Some(24 + |path|)
    ensures forall j :: 24 < j < 24 + |path| ==> MarkerEnd(u, j).None?
  {
    var w := u[24..24 + |path|];
    forall k | 0 <= k < |path|
      ensures u[24 + k] == path[k]
    {
      assert w[k] == u[24 + k];
    }
    assert u[24] == path[0] && u[25] == path[1];
    assert HasAt(u, 24, path);
    forall j | 24 < j < 24 + |path|
      ensures MarkerEnd(u, j).None?
    {
      MarkerHead(u, j);
      assert u[j] == path[j - 24];
      assert j + 1 < 24 + |path| ==> u[j + 1] == path[j - 23];
    }
  }

  // The conditions on the id and the tail are needed: each of these links
  // holds an 11-character id and does not yield it.

  /** A string with no line terminator is one line, and one with no stop is one run. */
  lemma PlainLine(s: string, q: nat)
    requires q <= |s|
    requires forall i :: 0 <= i < |s| ==> !IsLineTerminator(s[i]) && (q <= i ==> !IsIdStop(s[i]))
    ensures FirstLineEnd(s) == |s| && RunEnd(s, q) == |s|
  {
  }

  /** No marker starts from `n` on when nothing from `n` on is '/' or '='. */
  lemma NoMarkerFrom(u: string, n: nat)
    requires forall k :: n <= k < |u| ==> u[k] != '/' && u[k] != '='
    ensures forall j :: n <= j <= |u| ==> MarkerEnd(u, j).None?
  {
    forall j | n <= j <= |u|
      ensures MarkerEnd(u, j).None?
    {
      MarkerLast(u, j);
    }
  }

  /** Extra id characters after a short link's id make the run too long. */
  lemma LongerRunYieldsNone(u: string)
    requires u == "https://youtu.be/dQw4w9WgXcQabc"
    ensures ExtractYoutubeVideoId(u) == None
  {
    ShortLinkScan(u);
    MatchIsLastMarker(u, 8);
  }

  lemma ShortLinkScan(u: string)
    requires u == "https://youtu.be/dQw4w9WgXcQabc"
    ensures FirstLineEnd(u) == |u| && RunEnd(u, 17) == |u|
    ensures MarkerEnd(u, 8) == Some(17)
    ensures forall j :: 8 < j <= |u| ==> MarkerEnd(u, j).None?
  {
    ShortLinkMarker(u);
    ShortLinkRun(u);
    ShortLinkTail(u);
  }

  /** The short link is one line, and its run goes from 17 to the end. */
  lemma ShortLinkRun(u: string)
    requires u == "https://youtu.be/dQw4w9WgXcQabc"
    ensures FirstLineEnd(u) == |u| && RunEnd(u, 17) == |u|
  {
    PlainLine(u, 17);
  }

  /** No marker starts in the run. */
  lemma ShortLinkTail(u: string)
    requires u == "https://youtu.be/dQw4w9WgXcQabc"
    ensures forall j :: 17 <= j <= |u| ==> MarkerEnd(u, j).None?
  {
    NoMarkerFrom(u, 17);
  }

  /** The short-link marker at 8 is the only one inside the prefix. */
  lemma ShortLinkMarker(u: string)
    requires u == "https://youtu.be/dQw4w9WgXcQabc"
    ensures MarkerEnd(u, 8) == Some(17)
    ensures forall j :: 8 < j < 17 ==> MarkerEnd(u, j).None?
  {
    var pre := "https://youtu.be/";
    assert u == pre + "dQw4w9WgXcQabc";
    assert forall i :: 0 <= i < |pre| ==> u[i] == pre[i];
    assert u[8..13] == "youtu" && u[14..17] == "be/";
    forall j | 8 < j < 17
      ensures MarkerEnd(u, j).None?
    {
      MarkerHead(u, j);
    }
  }

  /** Where "&v=" starts, that is the marker, since no other one starts with '&'. */
  lemma AmpMarker(s: string, p: nat)
    requires HasAt(s, p, "&v=")
    ensures MarkerEnd(s, p) == Some(p + 3)
  {
    LiteralHead(s, p, "&v=");
    if p + 9 <= |s| {
      assert s[p..p + 5][0] == s[p];
    }
    if p + 4 <= |s| {
      assert s[p..p + 2][0] == s[p];
    }
    if HasAt(s, p, "v/") {
      LiteralHead(s, p, "v/");
    }
    if HasAt(s, p, "embed/") {
      LiteralHead(s, p, "embed/");
    }
    if HasAt(s, p, "watch?v=") {
      LiteralHead(s, p, "watch?v=");
    }
  }

  /**
   * In a watch link followed by "&v=" and a run, the later marker is the one
   * used: the link yields the run when it is 11 characters long, and no id
   * otherwise, whatever the first id was.
   */
  lemma LaterMarkerWins(id: string, run: string)
    requires IsPlainId(id)
    requires forall k :: 0 <= k < |run| ==>
      !IsIdStop(run[k]) && !IsLineTerminator(run[k]) && run[k] != '/' && run[k] != '='
    ensures ExtractYoutubeVideoId("https://www.youtube.com/watch?v=" + id + "&v=" + run)
         == if |run| == 11 then Some(run) else None
  {
    var u := "https://www.youtube.com/watch?v=" + id + "&v=" + run;
    LaterMarkerParts(u, id, run);
    AmpMarkerLast(u, run);
  }

  /** A one-line link whose last 3 + |run| characters are "&v=" and a run yields the run when it is 11 long. */
  lemma AmpMarkerLast(u: string, run: string)
    requires |u| == 46 + |run| && FirstLineEnd(u) == |u| && HasAt(u, 43, "&v=")
    requires u[44] == 'v' && u[45] == '='
    requires forall k :: 46 <= k < |u| ==> u[k] == run[k - 46] && u[k] != '/' && u[k] != '=' && !IsIdStop(u[k])
    ensures ExtractYoutubeVideoId(u) == if |run| == 11 then Some(run) else None
  {
    AmpMatch(u, run);
    assert u[46..|u|] == run by {
      forall k | 0 <= k < |run|
        ensures u[46..|u|][k] == run[k]
      {
        assert u[46 + k] == run[k];
      }
    }
  }

  /** The match of such a link: the "&v=" marker and the run up to the end. */
  lemma AmpMatch(u: string, run: string)
    requires |u| == 46 + |run| && FirstLineEnd(u) == |u| && HasAt(u, 43, "&v=")
    requires u[44] == 'v' && u[45] == '='
    requires forall k :: 46 <= k < |u| ==> u[k] != '/' && u[k] != '=' && !IsIdStop(u[k])
    ensures MatchYoutube(u) == Some(YoutubeMatch(43, 46, |u|))
  {
    AmpMarker(u, 43);
    NoMarkerAfterAmp(u);
    MatchIsLastMarker(u, 43);
    assert RunEnd(u, 46) == |u|;
  }

  lemma NoMarkerAfterAmp(u: string)
    requires |u| >= 46 && u[44] == 'v' && u[45] == '='
    requires forall k :: 46 <= k < |u| ==> u[k] != '/' && u[k] != '='
    ensures forall j :: 43 < j <= |u| ==> MarkerEnd(u, j).None?
  {
    MarkerHead(u, 44);
    MarkerHead(u, 45);
    NoMarkerFrom(u, 46);
  }

  /** The layout of a watch link followed by "&v=" and a run. */
  lemma LaterMarkerParts(u: string, id: string, run: string)
    requires IsPlainId(id)
    requires forall k :: 0 <= k < |run| ==>
      !IsIdStop(run[k]) && !IsLineTerminator(run[k]) && run[k] != '/' && run[k] != '='
    requires u == "https://www.youtube.com/watch?v=" + id + "&v=" + run
    ensures |u| == 46 + |run| && FirstLineEnd(u) == |u| && HasAt(u, 43, "&v=")
    ensures u[44] == 'v' && u[45] == '='
    ensures forall k :: 46 <= k < |u| ==> u[k] == run[k - 46] && u[k] != '/' && u[k] != '=' && !IsIdStop(u[k])
  {
    var host, path, amp := "https://www.youtube.com/", "watch?v=", "&v=";
    assert u == host + path + id + amp + run;
    HostLine(host);
    PathLine(path);
    forall i | 0 <= i < |u|
      ensures !IsLineTerminator(u[i])
    {
      if i < 24 {
        assert u[i] == host[i];
      } else if i < 32 {
        assert u[i] == path[i - 24];
      } else if i < 43 {
        assert u[i] == id[i - 32];
      } else if i < 46 {
        assert u[i] == amp[i - 43];
      } else {
        assert u[i] == run[i - 46];
      }
    }
    assert u[43] == '&' && u[44] == 'v' && u[45] == '=';
    assert u[43..46] == amp;
  }

  /** An 11-character run holding "v/", made into an embed URL, yields no id when pasted back. */
  lemma MarkerInIdYieldsNone(u: string)
    requires u == EmbedPrefix + "abcv/efghij"
    ensures ExtractYoutubeVideoId(u) == None
  {
    PlainLine(u, 35);
    assert u[33..35] == "v/";
    forall j | 33 < j <= |u|
      ensures MarkerEnd(u, j).None?
    {
      MarkerHead(u, j);
    }
    MatchIsLastMarker(u, 33);
  }

  // A link with no marker yields no id, so the URL is used as the embed URL.

  lemma OtherLinkScan(u: string)
    requires u == "https://vimeo.com/76979871"
    ensures forall j :: 0 <= j <= |u| ==> MarkerEnd(u, j).None?
  {
    forall j | 0 <= j <= |u|
      ensures MarkerEnd(u, j).None?
    {
      MarkerHead(u, j);
    }
  }

  lemma OtherLinkExample(u: string)
    requires u == "https://vimeo.com/76979871"
    ensures ExtractYoutubeVideoId(u) == None
  {
    OtherLinkScan(u);
  }

  /** The embed address prefix, written around its host. */
  const EmbedPrefix: string := "https://www." + "youtube.com" + "/embed/"

  function ThumbnailFor(id: string): string
  {
    "https://img.youtube.com/vi/" + id + "/maxresdefault.jpg"
  }

  /** A video whose embed URL the handler made from an id plays in an `<iframe>`. */
  lemma EmbedUrlPlaysInFrame(v: VideoItem, id: string)
    requires v.embedUrl == EmbedPrefix + id
    ensures PlayerFor(v) == IFrame
  {
    assert v.embedUrl == "https://www." + "youtube.com" + ("/embed/" + id);
    YouTubeUrlPlaysInFrame(v, "https://www.", "/embed/" + id);
  }

  function VideoId(v: VideoItem): string { v.id }

  /** The two videos the tab starts from when the document holds none. */
  const SampleVideos: seq<VideoItem> := [
    VideoItem("video-1", "Brand Identity Showcase",
      "A video presentation of our recent brand identity project, showcasing the design process and final deliverables.",
      "https://www.youtube.com/embed/dQw4w9WgXcQ", "https://images.unsplash.com/photo-1611162616475-46b635cb6868", false),
    VideoItem("video-2", "UI/UX Design Process",
      "A walkthrough of our design process for mobile applications, from wireframing to final implementation.",
      "https://www.youtube.com/embed/dQw4w9WgXcQ", "https://images.unsplash.com/photo-1626785774573-4b799315345d", false)
  ]

  /** The guard of `handleSubmit`: title, description and embed URL are required; the thumbnail is not. */
  predicate MissingVideoFields(title: string, description: string, embedUrl: string)
  {
    title == "" || description == "" || embedUrl == ""
  }

  /** The edit the list applies to the video being edited; `isLocal` is kept. */
  function VideoEdit(title: string, description: string, embedUrl: string, thumbnailUrl: string): VideoItem -> VideoItem
  {
    (v: VideoItem) => v.(title := title, description := description, embedUrl := embedUrl, thumbnailUrl := thumbnailUrl)
  }

  class VideoGalleryTab {
    var videos: seq<VideoItem>
    var isDialogOpen: bool
    var isDeleteDialogOpen: bool
    var editMode: bool
    var currentVideo: Option<VideoItem>
    var videoToDelete: Option<string>
    var title: string
    var description: string
    var embedUrl: string
    var thumbnailUrl: string
    /** Every list handed to `storageService.updateVideos`, oldest first. */
    var sent: seq<seq<VideoItem>>

    constructor ()
      ensures videos == [] && !isDialogOpen && !isDeleteDialogOpen && !editMode
      ensures currentVideo == None && videoToDelete == None && sent == []
      ensures title == "" && description == "" && embedUrl == "" && thumbnailUrl == ""
    {
      videos := [];
      isDialogOpen, isDeleteDialogOpen, editMode := false, false, false;
      currentVideo, videoToDelete := None, None;
      title, description, embedUrl, thumbnailUrl := "", "", "", "";
      sent := [];
    }

    predicate FormIsReset()
      reads this
    {
      title == "" && description == "" && embedUrl == "" && thumbnailUrl == "" && currentVideo == None && !editMode
    }

    /**
     * The effect on the context document. The document has no video list, so
     * the tab always starts from the two sample videos, and hands them on
     * when a document is present.
     */
    method Load(userData: Option<Storage.UserData>)
      modifies this`videos, this`sent
      ensures videos == SampleVideos && |videos| == 2
      ensures sent == old(sent) + (if userData.Some? then [SampleVideos] else [])
    {
      videos := SampleVideos;
      if userData.Some? {
        sent := sent + [SampleVideos];
      }
    }

    /** `resetForm`. */
    method ResetForm()
      modifies this`title, this`description, this`embedUrl, this`thumbnailUrl, this`currentVideo, this`editMode
      ensures FormIsReset()
    {
      title, description, embedUrl, thumbnailUrl := "", "", "", "";
      currentVideo := None;
      editMode := false;
    }

    /** The "Add Video" button: an empty form in a newly opened dialog. */
    method OpenNewVideo()
      modifies this`title, this`description, this`embedUrl, this`thumbnailUrl, this`currentVideo,
               this`editMode, this`isDialogOpen
      ensures FormIsReset() && isDialogOpen
    {
      ResetForm();
      isDialogOpen := true;
    }

    /** `handleEditVideo`. */
    method EditVideo(v: VideoItem)
      modifies this`title, this`description, this`embedUrl, this`thumbnailUrl, this`currentVideo,
               this`editMode, this`isDialogOpen
      ensures currentVideo == Some(v) && editMode && isDialogOpen
      ensures title == v.title && description == v.description
      ensures embedUrl == v.embedUrl && thumbnailUrl == v.thumbnailUrl
    {
      currentVideo := Some(v);
      title, description, embedUrl, thumbnailUrl := v.title, v.description, v.embedUrl, v.thumbnailUrl;
      editMode := true;
      isDialogOpen := true;
    }

    /** `handleDeleteConfirm`. */
    method ConfirmDelete(id: string)
      modifies this`videoToDelete, this`isDeleteDialogOpen
      ensures videoToDelete == Some(id) && isDeleteDialogOpen
    {
      videoToDelete := Some(id);
      isDeleteDialogOpen := true;
    }

    /** `handleYoutubeUrlChange`. */
    method YoutubeUrlChange(url: string)
      modifies this`embedUrl, this`thumbnailUrl
      ensures ExtractYoutubeVideoId(url).Some? ==>
        var id := ExtractYoutubeVideoId(url).value;
        embedUrl == EmbedPrefix + id
        && thumbnailUrl == (if old(thumbnailUrl) == "" then ThumbnailFor(id) else old(thumbnailUrl))
      ensures ExtractYoutubeVideoId(url).None? ==> embedUrl == url && thumbnailUrl == old(thumbnailUrl)
    {
      var videoId := ExtractYoutubeVideoId(url);
      if videoId.Some? {
        embedUrl := EmbedPrefix + videoId.value;
        if thumbnailUrl == "" {
          thumbnailUrl := ThumbnailFor(videoId.value);
        }
      } else {
        embedUrl := url;
      }
    }

    /** `handleDeleteVideo`: the list is filtered and handed on; the dialog closes. */
    method DeleteVideo()
      modifies this`videos, this`sent, this`isDeleteDialogOpen, this`videoToDelete
      ensures old(videoToDelete).None? || old(videoToDelete).value == "" ==>
        videos == old(videos) && sent == old(sent)
        && isDeleteDialogOpen == old(isDeleteDialogOpen) && videoToDelete == old(videoToDelete)
      ensures old(videoToDelete).Some? && old(videoToDelete).value != "" ==>
        videos == Seqs.RemoveId(old(videos), VideoId, old(videoToDelete).value)
        && sent == old(sent) + [videos] && !isDeleteDialogOpen && videoToDelete == None
    {
      if videoToDelete.None? || videoToDelete.value == "" {
        return;
      }
      var updated := Seqs.RemoveId(videos, VideoId, videoToDelete.value);
      videos := updated;
      sent := sent + [updated];
      isDeleteDialogOpen := false;
      videoToDelete := None;
    }

    /**
     * `handleSubmit`. A missing field changes nothing. Otherwise the list is
     * edited (edit mode) or gets a new video with id "video-" + `now` at its
     * head, and is handed on; `sinkThrows` says whether that call threw, in
     * which case the dialog and the form are left as they were.
     */
    method Submit(now: int, sinkThrows: bool)
      modifies this
      ensures MissingVideoFields(old(title), old(description), old(embedUrl)) ==> unchanged(this)
      ensures !MissingVideoFields(old(title), old(description), old(embedUrl)) ==>
        && videos == (if old(editMode) && old(currentVideo).Some?
             then Seqs.MapId(old(videos), VideoId, old(currentVideo).value.id,
                    VideoEdit(old(title), old(description), old(embedUrl), old(thumbnailUrl)))
             else [VideoItem("video-" + Storage.IntToDecimal(now), old(title), old(description),
                             old(embedUrl), old(thumbnailUrl), false)] + old(videos))
        && sent == old(sent) + [videos]
        && (sinkThrows ==>
              && isDialogOpen == old(isDialogOpen) && title == old(title)
              && description == old(description) && embedUrl == old(embedUrl)
              && thumbnailUrl == old(thumbnailUrl) && currentVideo == old(currentVideo) && editMode == old(editMode))
        && (!sinkThrows ==> !isDialogOpen && FormIsReset())
      ensures isDeleteDialogOpen == old(isDeleteDialogOpen) && videoToDelete == old(videoToDelete)
    {
      if MissingVideoFields(title, description, embedUrl) {
        return;
      }
      var updated;
      if editMode && currentVideo.Some? {
        updated := Seqs.MapId(videos, VideoId, currentVideo.value.id,
          VideoEdit(title, description, embedUrl, thumbnailUrl));
      } else {
        var newVideo := VideoItem("video-" + Storage.IntToDecimal(now), title, description, embedUrl, thumbnailUrl, false);
        updated := [newVideo] + videos;
      }
      videos := updated;
      sent := sent + [updated];
      if sinkThrows {
        return;
      }
      isDialogOpen := false;
      ResetForm();
    }
  }
}
