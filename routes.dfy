/**
 * Rate-limit route keys (lib/rest/RequestHandler.ts, `getRoute`).
 *
 * A request path "/s0/s1/.../sn" is handled as its segments [s0, ..., sn]
 * (the text between slashes, after the leading slash). Each regular
 * expression of `getRoute` only ever matches whole segments, or a prefix
 * of a segment that starts right after a slash, so each replace pass is an
 * exact left-to-right, non-overlapping scan over the segments.
 */
module Routes {

  import opened JsNum

  predicate IsDigit(c: char) {
    '0' <= c <= '9'
  }

  /** `[a-z-]` */
  predicate IsWordChar(c: char) {
    'a' <= c <= 'z' || c == '-'
  }

  /** `[A-Za-z0-9-_]` */
  predicate IsTokenChar(c: char) {
    'a' <= c <= 'z' || 'A' <= c <= 'Z' || IsDigit(c) || c == '-' || c == '_'
  }

  /** `[a-z-]+` matching a whole segment. */
  predicate IsWord(s: string) {
    |s| > 0 && forall i :: 0 <= i < |s| ==> IsWordChar(s[i])
  }

  /** `\d+` (or `[0-9]+`) matching a whole segment. */
  predicate AllDigits(s: string) {
    |s| > 0 && forall i :: 0 <= i < |s| ==> IsDigit(s[i])
  }

  predicate StartsWith(s: string, p: string) {
    |p| <= |s| && s[..|p|] == p
  }

  predicate EndsWith(s: string, p: string) {
    |p| <= |s| && s[|s| - |p|..] == p
  }

  function Min(a: int, b: int): int {
    if a <= b then a else b
  }

  /** Length of the longest run of digits at the start of `s`. */
  function DigitRun(s: string): (n: nat)
    ensures n <= |s|
    ensures forall i :: 0 <= i < n ==> IsDigit(s[i])
    ensures n < |s| ==> !IsDigit(s[n])
  {
    if |s| == 0 || !IsDigit(s[0]) then 0 else 1 + DigitRun(s[1..])
  }

  /** Length of the longest run of token characters at the start of `s`. */
  function TokenRun(s: string): (n: nat)
    ensures n <= |s|
    ensures forall i :: 0 <= i < n ==> IsTokenChar(s[i])
    ensures n < |s| ==> !IsTokenChar(s[n])
  {
    if |s| == 0 || !IsTokenChar(s[0]) then 0 else 1 + TokenRun(s[1..])
  }

  lemma {:induction false} DigitRunOfDigits(s: string)
    requires AllDigits(s)
    ensures DigitRun(s) == |s|
  {
    if |s| > 1 {
      DigitRunOfDigits(s[1..]);
    }
  }

  // ---------------------------------------------------------------------
  // Paths and their segments
  // ---------------------------------------------------------------------

  /** The path "/s0/s1/.../sn" spelled by the segments [s0, ..., sn]. */
  function Join(segs: seq<string>): (p: string)
    ensures |segs| > 0 ==> |p| > 0 && p[0] == '/'
  {
    if segs == [] then "" else "/" + segs[0] + Join(segs[1..])
  }

  /** The segments of "/" + `s`: `s` cut at every slash. */
  function Split(s: string): (segs: seq<string>)
    ensures |segs| > 0
    ensures forall i :: 0 <= i < |segs| ==> '/' !in segs[i]
  {
    if |s| == 0 then [""]
    else if s[0] == '/' then [""] + Split(s[1..])
    else
      var rest := Split(s[1..]);
      [[s[0]] + rest[0]] + rest[1..]
  }

  /** Splitting loses nothing: the segments spell the path again. */
  lemma {:induction false} JoinSplit(s: string)
    ensures Join(Split(s)) == "/" + s
  {
    if |s| == 0 {
    } else if s[0] == '/' {
      JoinSplit(s[1..]);
      JoinCons("", Split(s[1..]));
      assert s == "/" + s[1..];
    } else {
      var rest := Split(s[1..]);
      JoinSplit(s[1..]);
      JoinHeadGrow(s[0], rest);
      assert ("/" + s[1..])[1..] == s[1..];
      assert [s[0]] + s[1..] == s;
    }
  }

  lemma JoinHeadGrow(c: char, segs: seq<string>)
    requires segs != []
    ensures Join([[c] + segs[0]] + segs[1..]) == "/" + [c] + Join(segs)[1..]
  {
    var t := [[c] + segs[0]] + segs[1..];
    JoinCons([c] + segs[0], segs[1..]);
    JoinCons(segs[0], segs[1..]);
    assert [segs[0]] + segs[1..] == segs;
    ConcatRegroup("/", [c], segs[0], Join(segs[1..]));
  }

  lemma JoinCons(w: string, rest: seq<string>)
    ensures Join([w] + rest) == "/" + w + Join(rest)
    ensures Join([w] + rest)[1..] == w + Join(rest)
  {
    assert ([w] + rest)[1..] == rest;
  }

  lemma ConcatRegroup(a: string, b: string, x: string, y: string)
    ensures a + (b + x) + y == a + b + (x + y)
  {
  }

  /** Joining loses nothing: slash-free segments are recovered by splitting. */
  lemma {:induction false} SplitJoin(segs: seq<string>)
    requires |segs| > 0
    requires forall i :: 0 <= i < |segs| ==> '/' !in segs[i]
    ensures Split(Join(segs)[1..]) == segs
  {
    var tail := Join(segs[1..]);
    JoinCons(segs[0], segs[1..]);
    assert [segs[0]] + segs[1..] == segs;
    SplitPrefix(segs[0], tail);
    if |segs| > 1 {
      SplitJoin(segs[1..]);
    }
  }

  /** Splitting a slash-free word followed by text that is empty or starts with a slash. */
  lemma {:induction false} SplitPrefix(w: string, t: string)
    requires '/' !in w
    requires t == [] || t[0] == '/'
    ensures t == [] ==> Split(w + t) == [w]
    ensures t != [] ==> Split(w + t) == [w] + Split(t[1..])
  {
    if w == [] {
      assert w + t == t;
    } else {
      assert (w + t)[1..] == w[1..] + t;
      SplitPrefix(w[1..], t);
      assert [w[0]] + w[1..] == w;
    }
  }

  // ---------------------------------------------------------------------
  // The four replace passes of `getRoute` (RequestHandler.ts:57-59)
  // ---------------------------------------------------------------------

  /** Top-level collections whose ID is kept literally. */
  const KeptCollections: set<string> := {"channels", "guilds", "webhooks"}

  /**
   * `/\/([a-z-]+)\/(?:[\d]{15,21})/g`: a word segment followed by a segment
   * that starts with 15 or more digits; the first 21 digits at most become
   * ":id", unless the word is one of the kept collections.
   */
  function CollapseIds(segs: seq<string>): (r: seq<string>)
    ensures |r| == |segs|
  {
    if |segs| == 0 then []
    else if |segs| >= 2 && IsWord(segs[0]) && DigitRun(segs[1]) >= 15 then
      var id := segs[1];
      var replaced := if segs[0] in KeptCollections then id else ":id" + id[Min(DigitRun(id), 21)..];
      [segs[0], replaced] + CollapseIds(segs[2..])
    else [segs[0]] + CollapseIds(segs[1..])
  }

  /** `/\/reactions\/[^/]+/g` replaced by "/reactions/:id". */
  function ReactionIds(segs: seq<string>): (r: seq<string>)
    ensures |r| == |segs|
  {
    if |segs| == 0 then []
    else if |segs| >= 2 && segs[0] == "reactions" && segs[1] != "" then
      ["reactions", ":id"] + ReactionIds(segs[2..])
    else [segs[0]] + ReactionIds(segs[1..])
  }

  /** `/\/reactions\/:id\/[^/]+/g` replaced by "/reactions/:id/:userID". */
  function ReactionUserIds(segs: seq<string>): (r: seq<string>)
    ensures |r| == |segs|
  {
    if |segs| == 0 then []
    else if |segs| >= 3 && segs[0] == "reactions" && segs[1] == ":id" && segs[2] != "" then
      ["reactions", ":id", ":userID"] + ReactionUserIds(segs[3..])
    else [segs[0]] + ReactionUserIds(segs[1..])
  }

  /** `/^\/webhooks\/(\d+)\/[A-Za-z0-9-_]{64,}/` replaced by "/webhooks/$1/:token". */
  function WebhookToken(segs: seq<string>): (r: seq<string>)
    ensures |r| == |segs|
    ensures |segs| >= 3 && segs[0] == "webhooks" && AllDigits(segs[1]) && TokenRun(segs[2]) >= 64
      ==> r[..2] == segs[..2] && r[3..] == segs[3..] && StartsWith(r[2], ":token")
    ensures !(|segs| >= 3 && segs[0] == "webhooks" && AllDigits(segs[1]) && TokenRun(segs[2]) >= 64)
      ==> r == segs
  {
    if |segs| >= 3 && segs[0] == "webhooks" && AllDigits(segs[1]) && TokenRun(segs[2]) >= 64 then
      [segs[0], segs[1], ":token" + segs[2][TokenRun(segs[2])..]] + segs[3..]
    else segs
  }

  /** The chain of replace passes at RequestHandler.ts:57-59. */
  function Normalise(segs: seq<string>): (r: seq<string>)
    ensures |r| == |segs|
  {
    WebhookToken(ReactionUserIds(ReactionIds(CollapseIds(segs))))
  }

  // ---------------------------------------------------------------------
  // Route keys
  // ---------------------------------------------------------------------

  /** A route key: a method-derived prefix ("", "DELETE_OLD", "MODIFY", ...) and segments. */
  datatype RouteKey = RouteKey(prefix: string, segs: seq<string>)

  /** The key as the string the handler indexes its buckets by. */
  function KeyString(k: RouteKey): string {
    k.prefix + Join(k.segs)
  }

  const FourteenDays: int := 1000 * 60 * 60 * 24 * 14
  const TenSeconds: int := 1000 * 10

  /** `route.endsWith("/messages/:id")` */
  predicate EndsWithMessageId(segs: seq<string>) {
    |segs| >= 2 && segs[|segs| - 2] == "messages" && segs[|segs| - 1] == ":id"
  }

  /** `/\/guilds\/[0-9]+\/channels$/.test(route)` */
  predicate IsGuildChannelList(segs: seq<string>) {
    |segs| >= 3 && segs[|segs| - 3] == "guilds" && AllDigits(segs[|segs| - 2]) && segs[|segs| - 1] == "channels"
  }

  /** Index of the first segment that starts with "reactions" (where `indexOf("/reactions")` hits), or |segs|. */
  function FirstReactions(segs: seq<string>): (i: nat)
    ensures i <= |segs|
    ensures i < |segs| ==> StartsWith(segs[i], "reactions")
    ensures forall j :: 0 <= j < i ==> !StartsWith(segs[j], "reactions")
  {
    if |segs| == 0 then 0
    else if StartsWith(segs[0], "reactions") then 0
    else 1 + FirstReactions(segs[1..])
  }

  /**
   * The method after the message-age suffix of RequestHandler.ts:63-64. A NaN
   * age fails both comparisons, so it leaves the method a plain DELETE.
   */
  function DeleteMethod(age: JsNumber): (m: string)
    ensures age.Int? && age.v >= FourteenDays <==> m == "DELETE_OLD"
    ensures age.Int? && age.v <= TenSeconds <==> m == "DELETE_NEW"
    ensures age.NaN? || TenSeconds < age.v < FourteenDays <==> m == "DELETE"
  {
    match age
    case NaN => "DELETE"
    case Int(a) =>
      if a >= FourteenDays then "DELETE_OLD"
      else if a <= TenSeconds then "DELETE_NEW"
      else "DELETE"
  }

  /**
   * The tail of `getRoute` (RequestHandler.ts:60-73) once the replace passes
   * have produced `n`; `age` is `Date.now() - latency - createdAt` of the
   * message named by the last path segment, consulted only for a message
   * DELETE.
   */
  function RouteOf(n: seq<string>, verb: string, age: JsNumber): (r: RouteKey)
    ensures |r.segs| <= |n|
    ensures verb != "PUT" && verb != "DELETE" ==> r.prefix == ""
    ensures r.prefix in {"", "DELETE", "DELETE_OLD", "DELETE_NEW", "MODIFY", "MODIFYDELETE"}
  {
    var isMessageDelete := verb == "DELETE" && EndsWithMessageId(n);
    var verb' := if isMessageDelete then DeleteMethod(age) else verb;
    var route :=
      if isMessageDelete then RouteKey(verb', n)
      else if verb == "GET" && IsGuildChannelList(n) then RouteKey("", ["guilds", ":id", "channels"])
      else RouteKey("", n);
    var i := FirstReactions(route.segs);
    if (verb' == "PUT" || verb' == "DELETE") && i < |route.segs| then
      assert route.prefix == "" || route.prefix == "DELETE";
      assert "MODIFY" + "" == "MODIFY" && "MODIFY" + "DELETE" == "MODIFYDELETE";
      RouteKey("MODIFY" + route.prefix, route.segs[..i] + ["reactions"])
    else route
  }

  /**
   * The age of the message a path names, as RequestHandler.ts:63-64 computes
   * it: NaN when the latency is NaN.
   */
  function MessageAge(path: seq<string>, now: int, latency: JsNumber, createdAt: string -> int): JsNumber {
    match latency
    case NaN => NaN
    case Int(l) => Int(if path == [] then 0 else now - l - createdAt(path[|path| - 1]))
  }

  /**
   * `getRoute(path, method)` (RequestHandler.ts:56-74), with the method as
   * `verb`. `createdAt` stands for `Base.getCreatedAt`, `now` for
   * `Date.now()` and `latency` for `latencyRef.latency`.
   */
  function GetRoute(path: seq<string>, verb: string, now: int, latency: JsNumber,
                    createdAt: string -> int): (r: RouteKey)
    ensures |r.segs| <= |path|
    ensures verb != "PUT" && verb != "DELETE" ==> r.prefix == ""
    ensures r.prefix in {"", "DELETE", "DELETE_OLD", "DELETE_NEW", "MODIFY", "MODIFYDELETE"}
  {
    RouteOf(Normalise(path), verb, MessageAge(path, now, latency, createdAt))
  }

  // ---------------------------------------------------------------------
  // Properties of the route keys
  // ---------------------------------------------------------------------

  /** The ID pass never pairs the last segment of `a` with a segment that does not start with 15 digits. */
  lemma {:induction false} CollapseAppend(a: seq<string>, b: seq<string>)
    requires b == [] || DigitRun(b[0]) < 15
    ensures CollapseIds(a + b) == CollapseIds(a) + CollapseIds(b)
    decreases |a|
  {
    if |a| == 0 {
      assert a + b == b;
    } else if |a| >= 2 && IsWord(a[0]) && DigitRun(a[1]) >= 15 {
      HeadTail(a, b);
      HeadTail(a[1..], b);
      CollapseAppend(a[2..], b);
      var id := a[1];
      var replaced := if a[0] in KeptCollections then id else ":id" + id[Min(DigitRun(id), 21)..];
      Assoc([a[0], replaced], CollapseIds(a[2..]), CollapseIds(b));
    } else {
      HeadTail(a, b);
      CollapseAppend(a[1..], b);
      Assoc([a[0]], CollapseIds(a[1..]), CollapseIds(b));
    }
  }

  lemma WordHasNoDigitRun(p: string)
    requires IsWord(p)
    ensures DigitRun(p) == 0
  {
    assert IsWordChar(p[0]);
  }

  /** A 15-21 digit ID after any word other than channels, guilds or webhooks becomes ":id". */
  lemma {:induction false} CollapseForgetsId(a: seq<string>, p: string, id: string, b: seq<string>)
    requires IsWord(p) && p !in KeptCollections
    requires AllDigits(id) && 15 <= |id| <= 21
    ensures CollapseIds(a + [p, id] + b) == CollapseIds(a) + [p, ":id"] + CollapseIds(b)
  {
    var t := [p, id] + b;
    CollapsePair(p, id, b);
    CollapseAppend(a, t);
    assert a + [p, id] + b == a + t;
  }

  lemma CollapsePair(p: string, id: string, b: seq<string>)
    requires IsWord(p) && p !in KeptCollections
    requires AllDigits(id) && 15 <= |id| <= 21
    ensures DigitRun(([p, id] + b)[0]) < 15
    ensures CollapseIds([p, id] + b) == [p, ":id"] + CollapseIds(b)
  {
    DigitRunOfDigits(id);
    WordHasNoDigitRun(p);
    assert ([p, id] + b)[2..] == b;
    assert id[Min(DigitRun(id), 21)..] == "";
    assert ":id" + "" == ":id";
  }

  /** After channels, guilds and webhooks the matched ID is kept literally. */
  lemma {:induction false} CollapseKeepsId(a: seq<string>, p: string, id: string, b: seq<string>)
    requires p in KeptCollections
    requires DigitRun(id) >= 15
    ensures CollapseIds(a + [p, id] + b) == CollapseIds(a) + [p, id] + CollapseIds(b)
  {
    WordsAreWords();
    WordHasNoDigitRun(p);
    var t := [p, id] + b;
    CollapseAppend(a, t);
    assert a + [p, id] + b == a + t;
    assert t[2..] == b;
  }

  /**
   * Paths that differ only in one 15-21 digit ID following a word other than
   * channels, guilds or webhooks share their route key. (A DELETE whose last
   * segment is a message ID, after "messages", is bucketed by that message's
   * age instead.)
   */
  lemma SameRouteForCollapsedIds(a: seq<string>, p: string, id1: string, id2: string, b: seq<string>,
                                  verb: string, now: int, latency: JsNumber, createdAt: string -> int)
    requires IsWord(p) && p !in KeptCollections
    requires AllDigits(id1) && 15 <= |id1| <= 21
    requires AllDigits(id2) && 15 <= |id2| <= 21
    requires verb != "DELETE" || b != [] || p != "messages"
    ensures GetRoute(a + [p, id1] + b, verb, now, latency, createdAt)
         == GetRoute(a + [p, id2] + b, verb, now, latency, createdAt)
  {
    CollapseForgetsId(a, p, id1, b);
    CollapseForgetsId(a, p, id2, b);
    var path1, path2 := a + [p, id1] + b, a + [p, id2] + b;
    var n := Normalise(path1);
    var age1, age2 := MessageAge(path1, now, latency, createdAt), MessageAge(path2, now, latency, createdAt);
    if b != [] {
      SameLastSameAge(a + [p, id1], a + [p, id2], b, now, latency, createdAt);
    } else {
      if verb == "DELETE" {
        var c := CollapseIds(path1);
        assert c == CollapseIds(a) + [p, ":id"] + CollapseIds([]);
        assert c[|c| - 2] == p;
        NormaliseKeepsOrMarks(c, |c| - 2);
        assert !EndsWithMessageId(n);
      }
      RouteOfIgnoresAge(n, verb, age1, age2);
    }
  }

  /** A segment that the passes write: ":id", ":userID" or ":token...". */
  predicate IsPlaceholder(w: string) {
    |w| > 0 && w[0] == ':'
  }

  /** After the ID pass, the other passes keep each segment or turn it into a placeholder. */
  lemma NormaliseKeepsOrMarks(c: seq<string>, k: nat)
    requires k < |c|
    ensures var n := WebhookToken(ReactionUserIds(ReactionIds(c)));
      n[k] == c[k] || IsPlaceholder(n[k])
  {
    var r1 := ReactionIds(c);
    var r2 := ReactionUserIds(r1);
    ReactionIdsKeepsOrMarks(c, k);
    ReactionUserIdsKeepsOrMarks(r1, k);
    var n := WebhookToken(r2);
    if n != r2 && k < 3 {
      assert n[..2] == r2[..2] && n[0] == n[..2][0] && n[1] == n[..2][1];
      assert r2[0] == r2[..2][0] && r2[1] == r2[..2][1];
      if k == 2 {
        assert StartsWith(n[2], ":token");
      }
    } else if n != r2 {
      assert n[3..] == r2[3..] && n[k] == n[3..][k - 3] && r2[k] == r2[3..][k - 3];
    }
  }

  lemma {:induction false} ReactionIdsKeepsOrMarks(c: seq<string>, k: nat)
    requires k < |c|
    ensures ReactionIds(c)[k] == c[k] || IsPlaceholder(ReactionIds(c)[k])
  {
    if |c| >= 2 && c[0] == "reactions" && c[1] != "" {
      if k >= 2 {
        ReactionIdsKeepsOrMarks(c[2..], k - 2);
      }
    } else if k >= 1 {
      ReactionIdsKeepsOrMarks(c[1..], k - 1);
    }
  }

  lemma {:induction false} ReactionUserIdsKeepsOrMarks(c: seq<string>, k: nat)
    requires k < |c|
    ensures ReactionUserIds(c)[k] == c[k] || IsPlaceholder(ReactionUserIds(c)[k])
  {
    if |c| >= 3 && c[0] == "reactions" && c[1] == ":id" && c[2] != "" {
      if k >= 3 {
        ReactionUserIdsKeepsOrMarks(c[3..], k - 3);
      }
    } else if k >= 1 {
      ReactionUserIdsKeepsOrMarks(c[1..], k - 1);
    }
  }

  lemma SameLastSameAge(x: seq<string>, y: seq<string>, b: seq<string>, now: int, latency: JsNumber,
                        createdAt: string -> int)
    requires b != []
    ensures MessageAge(x + b, now, latency, createdAt) == MessageAge(y + b, now, latency, createdAt)
  {
    assert (x + b)[|x + b| - 1] == b[|b| - 1] == (y + b)[|y + b| - 1];
  }

  /** Outside a message DELETE the message age is not consulted. */
  lemma RouteOfIgnoresAge(n: seq<string>, verb: string, age1: JsNumber, age2: JsNumber)
    requires verb != "DELETE" || !EndsWithMessageId(n)
    ensures RouteOf(n, verb, age1) == RouteOf(n, verb, age2)
  {
  }

  /** Without a reactions segment, a guild channel list or a DELETE, the key is the segments alone. */
  lemma RouteOfPlain(n: seq<string>, verb: string, age: JsNumber)
    requires (verb != "DELETE" || !EndsWithMessageId(n)) && FirstReactions(n) == |n|
    requires !(verb == "GET" && IsGuildChannelList(n))
    ensures RouteOf(n, verb, age) == RouteKey("", n)
  {
  }

  lemma {:induction false} NoReactionsUnchanged(segs: seq<string>)
    requires forall i :: 0 <= i < |segs| ==> segs[i] != "reactions"
    ensures ReactionIds(segs) == segs
    ensures ReactionUserIds(segs) == segs
  {
    if segs != [] {
      NoReactionsUnchanged(segs[1..]);
      assert segs == [segs[0]] + segs[1..];
    }
  }

  lemma WordsAreWords()
    ensures IsWord("channels") && IsWord("guilds") && IsWord("webhooks") && IsWord("messages")
  {
    assert forall i :: 0 <= i < |"channels"| ==> IsWordChar("channels"[i]);
    assert forall i :: 0 <= i < |"guilds"| ==> IsWordChar("guilds"[i]);
    assert forall i :: 0 <= i < |"webhooks"| ==> IsWordChar("webhooks"[i]);
    assert forall i :: 0 <= i < |"messages"| ==> IsWordChar("messages"[i]);
  }

  /** The ID pass leaves "/<kept collection>/<digits>[/<segment>]" unchanged. */
  lemma KeptPairThenPlain(p: string, id: string, rest: seq<string>)
    requires p in KeptCollections && AllDigits(id)
    requires |rest| <= 1
    ensures CollapseIds([p, id] + rest) == [p, id] + rest
  {
    WordsAreWords();
    var path := [p, id] + rest;
    assert !IsWord(id) by {
      assert IsDigit(id[0]);
    }
    assert path[2..] == rest;
    assert path[1..] == [id] + rest;
    assert CollapseIds(rest) == rest;
    if DigitRun(id) >= 15 {
      assert CollapseIds(path) == [p, id] + CollapseIds(rest);
    } else {
      assert (path[1..])[1..] == rest;
      assert CollapseIds(path[1..]) == [id] + CollapseIds(rest);
    }
  }

  /** The normalised form of "/channels/<c>/messages/<m>" for snowflake IDs. */
  lemma ChannelMessagePath(c: string, m: string)
    requires AllDigits(c) && 15 <= |c| <= 21
    requires AllDigits(m) && 15 <= |m| <= 21
    ensures Normalise(["channels", c, "messages", m]) == ["channels", c, "messages", ":id"]
  {
    WordsAreWords();
    DigitRunOfDigits(c);
    CollapseKeepsId([], "channels", c, ["messages", m]);
    CollapseForgetsId([], "messages", m, []);
    assert [] + ["channels", c] + ["messages", m] == ["channels", c, "messages", m];
    assert [] + ["messages", m] + [] == ["messages", m];
    var n := ["channels", c, "messages", ":id"];
    assert CollapseIds(["channels", c, "messages", m]) == n;
    assert c != "reactions" by {
      assert IsDigit(c[0]);
    }
    NoReactionsUnchanged(n);
  }

  /**
   * Two messages of one channel share a route key for every method but
   * DELETE, and the channel's ID stays in the key literally.
   */
  lemma MessagesOfOneChannelShareKey(c: string, m1: string, m2: string,
                                     verb: string, now: int, latency: JsNumber, createdAt: string -> int)
    requires AllDigits(c) && 15 <= |c| <= 21
    requires AllDigits(m1) && 15 <= |m1| <= 21
    requires AllDigits(m2) && 15 <= |m2| <= 21
    requires verb != "DELETE"
    ensures GetRoute(["channels", c, "messages", m1], verb, now, latency, createdAt)
         == GetRoute(["channels", c, "messages", m2], verb, now, latency, createdAt)
         == RouteKey("", ["channels", c, "messages", ":id"])
  {
    ChannelMessageKey(c, m1, verb, now, latency, createdAt);
    ChannelMessageKey(c, m2, verb, now, latency, createdAt);
  }

  lemma ChannelMessageKey(c: string, m: string, verb: string, now: int, latency: JsNumber, createdAt: string -> int)
    requires AllDigits(c) && 15 <= |c| <= 21
    requires AllDigits(m) && 15 <= |m| <= 21
    requires verb != "DELETE"
    ensures GetRoute(["channels", c, "messages", m], verb, now, latency, createdAt)
         == RouteKey("", ["channels", c, "messages", ":id"])
  {
    var path := ["channels", c, "messages", m];
    ChannelMessagePath(c, m);
    var n := ["channels", c, "messages", ":id"];
    assert FirstReactions(n) == |n| by {
      assert !StartsWith(n[1], "reactions") by {
        assert IsDigit(c[0]);
      }
      assert FirstReactions(n[3..]) == 1;
      assert FirstReactions(n[2..]) == 2;
      assert FirstReactions(n[1..]) == 3;
    }
    assert !IsGuildChannelList(n);
    RouteOfPlain(n, verb, MessageAge(path, now, latency, createdAt));
  }

  /**
   * DELETE on a message route is bucketed by the message's age: exactly one
   * of DELETE_OLD (at least 14 days), DELETE_NEW (at most 10 seconds) or
   * plain DELETE. The age suffix also turns the method into something other
   * than DELETE, so old and new deletes skip the reaction MODIFY prefix.
   */
  lemma DeleteMessageAge(n: seq<string>, age: JsNumber)
    requires EndsWithMessageId(n)
    ensures age.Int? && age.v >= FourteenDays ==> RouteOf(n, "DELETE", age) == RouteKey("DELETE_OLD", n)
    ensures age.Int? && age.v <= TenSeconds ==> RouteOf(n, "DELETE", age) == RouteKey("DELETE_NEW", n)
    ensures (age.NaN? || TenSeconds < age.v < FourteenDays) && FirstReactions(n) == |n|
      ==> RouteOf(n, "DELETE", age) == RouteKey("DELETE", n)
  {
  }

  /** A fresh and a 14-day-old message of the same channel never share a DELETE bucket. */
  lemma FreshAndOldDeletesDiffer(c: string, m1: string, m2: string, now: int, latency: int,
                                 createdAt: string -> int)
    requires AllDigits(c) && 15 <= |c| <= 21
    requires AllDigits(m1) && 15 <= |m1| <= 21
    requires AllDigits(m2) && 15 <= |m2| <= 21
    requires now - latency - createdAt(m1) <= TenSeconds
    requires now - latency - createdAt(m2) >= FourteenDays
    ensures GetRoute(["channels", c, "messages", m1], "DELETE", now, Int(latency), createdAt).prefix == "DELETE_NEW"
    ensures GetRoute(["channels", c, "messages", m2], "DELETE", now, Int(latency), createdAt).prefix == "DELETE_OLD"
  {
    ChannelMessagePath(c, m1);
    ChannelMessagePath(c, m2);
    var n := ["channels", c, "messages", ":id"];
    DeleteMessageAge(n, MessageAge(["channels", c, "messages", m1], now, Int(latency), createdAt));
    DeleteMessageAge(n, MessageAge(["channels", c, "messages", m2], now, Int(latency), createdAt));
  }

  /**
   * With a NaN latency every message DELETE of a channel gets the plain
   * DELETE key, whatever the message's age: neither the 14-day nor the
   * 10-second bucket is ever chosen.
   */
  lemma NaNLatencyDeletesArePlain(c: string, m: string, now: int, createdAt: string -> int)
    requires AllDigits(c) && 15 <= |c| <= 21
    requires AllDigits(m) && 15 <= |m| <= 21
    ensures GetRoute(["channels", c, "messages", m], "DELETE", now, NaN, createdAt)
         == RouteKey("DELETE", ["channels", c, "messages", ":id"])
  {
    ChannelMessagePath(c, m);
    var n := ["channels", c, "messages", ":id"];
    assert FirstReactions(n) == |n| by {
      assert !StartsWith("channels", "reactions") && !StartsWith("messages", "reactions");
      assert IsDigit(c[0]) && !StartsWith(c, "reactions");
      assert !StartsWith(":id", "reactions");
    }
    DeleteMessageAge(n, NaN);
  }

  /**
   * PUT or DELETE on a route with a "/reactions" segment is keyed "MODIFY" +
   * the route cut just after "/reactions" (unless it is a message DELETE).
   */
  lemma ModifyReactionKey(n: seq<string>, verb: string, age: JsNumber)
    requires verb == "PUT" || verb == "DELETE"
    requires !EndsWithMessageId(n)
    requires FirstReactions(n) < |n|
    ensures RouteOf(n, verb, age) == RouteKey("MODIFY", n[..FirstReactions(n)] + ["reactions"])
  {
    var i := FirstReactions(n);
    assert "MODIFY" + "" == "MODIFY";
    assert !(verb == "GET" && IsGuildChannelList(n));
    assert (verb == "PUT" || verb == "DELETE") && i < |n|;
  }

  lemma {:induction false} FirstReactionsAgree(n1: seq<string>, n2: seq<string>, i: nat)
    requires i == FirstReactions(n1) && i < |n1|
    requires i < |n2| && n1[..i] == n2[..i] && StartsWith(n2[i], "reactions")
    ensures FirstReactions(n2) == i
  {
    if i > 0 {
      assert n1[0] == n1[..i][0] == n2[..i][0] == n2[0];
      assert n1[1..][..i - 1] == n1[..i][1..] == n2[..i][1..] == n2[1..][..i - 1];
      FirstReactionsAgree(n1[1..], n2[1..], i - 1);
    }
  }

  /**
   * Whatever follows "/reactions" (emoji, user) does not matter, and creating
   * and deleting reactions share one key.
   */
  lemma ReactionRoutesShareModifyKey(n1: seq<string>, verb1: string, age1: JsNumber,
                                     n2: seq<string>, verb2: string, age2: JsNumber, i: nat)
    requires verb1 == "PUT" || verb1 == "DELETE"
    requires verb2 == "PUT" || verb2 == "DELETE"
    requires !EndsWithMessageId(n1) && !EndsWithMessageId(n2)
    requires i == FirstReactions(n1) && i < |n1|
    requires i < |n2| && n1[..i] == n2[..i] && StartsWith(n2[i], "reactions")
    ensures RouteOf(n1, verb1, age1) == RouteOf(n2, verb2, age2)
  {
    FirstReactionsAgree(n1, n2, i);
    ModifyReactionKey(n1, verb1, age1);
    ModifyReactionKey(n2, verb2, age2);
  }

  /** GET on a guild's channel list has one key for every guild. */
  lemma GuildChannelListKey(g: string, now: int, latency: JsNumber, createdAt: string -> int)
    requires AllDigits(g)
    ensures GetRoute(["guilds", g, "channels"], "GET", now, latency, createdAt) == RouteKey("", ["guilds", ":id", "channels"])
  {
    var path := ["guilds", g, "channels"];
    GuildChannelListPath(g);
    GuildChannelListRoute(path, MessageAge(path, now, latency, createdAt));
  }

  lemma GuildChannelListRoute(n: seq<string>, age: JsNumber)
    requires IsGuildChannelList(n)
    ensures RouteOf(n, "GET", age) == RouteKey("", ["guilds", ":id", "channels"])
  {
  }

  lemma GuildChannelListPath(g: string)
    requires AllDigits(g)
    ensures Normalise(["guilds", g, "channels"]) == ["guilds", g, "channels"]
  {
    var path := ["guilds", g, "channels"];
    GuildChannelListCollapse(g);
    assert g != "reactions" by {
      assert IsDigit(g[0]);
    }
    NoReactionsUnchanged(path);
  }

  lemma GuildChannelListCollapse(g: string)
    requires AllDigits(g)
    ensures CollapseIds(["guilds", g, "channels"]) == ["guilds", g, "channels"]
  {
    WordsAreWords();
    KeptPairThenPlain("guilds", g, ["channels"]);
    assert ["guilds", g] + ["channels"] == ["guilds", g, "channels"];
  }

  /**
   * Webhook tokens of 64 or more token characters collapse to ":token", for
   * every method and whatever follows the token. The one exception is a token
   * made only of lower-case letters and hyphens followed by a segment of 15 or
   * more digits: the ID pass takes such a token for a collection name, so a
   * token of that form and one of another form are not interchangeable there.
   */
  lemma WebhookTokensCollapse(id: string, t1: string, t2: string, rest: seq<string>, verb: string,
                              now: int, latency: JsNumber, createdAt: string -> int)
    requires AllDigits(id)
    requires TokenRun(t1) == |t1| >= 64 && TokenRun(t2) == |t2| >= 64
    requires rest == [] || DigitRun(rest[0]) < 15 || (!IsWord(t1) && !IsWord(t2))
    ensures Normalise(["webhooks", id, t1] + rest)
         == ["webhooks", id, ":token"] + ReactionUserIds(ReactionIds(CollapseIds(rest)))
    ensures GetRoute(["webhooks", id, t1] + rest, verb, now, latency, createdAt)
         == GetRoute(["webhooks", id, t2] + rest, verb, now, latency, createdAt)
  {
    WebhookPath(id, t1, rest);
    WebhookPath(id, t2, rest);
    if rest != [] {
      SameLastSameAge(["webhooks", id, t1], ["webhooks", id, t2], rest, now, latency, createdAt);
    } else {
      var path1, path2 := ["webhooks", id, t1] + rest, ["webhooks", id, t2] + rest;
      assert !EndsWithMessageId(Normalise(path1));
      RouteOfIgnoresAge(Normalise(path1), verb, MessageAge(path1, now, latency, createdAt),
                        MessageAge(path2, now, latency, createdAt));
    }
  }

  /** With nothing after the token, every method gets the one key "/webhooks/<id>/:token". */
  lemma WebhookKey(id: string, t: string, verb: string, now: int, latency: JsNumber, createdAt: string -> int)
    requires AllDigits(id)
    requires TokenRun(t) == |t| >= 64
    ensures GetRoute(["webhooks", id, t], verb, now, latency, createdAt) == RouteKey("", ["webhooks", id, ":token"])
  {
    var path := ["webhooks", id, t];
    var n := ["webhooks", id, ":token"];
    WebhookPath(id, t, []);
    assert path + [] == path;
    assert n + ReactionUserIds(ReactionIds(CollapseIds([]))) == n;
    var age := MessageAge(path, now, latency, createdAt);
    assert GetRoute(path, verb, now, latency, createdAt) == RouteOf(n, verb, age);
    WebhookRoute(id, verb, age);
  }

  lemma WebhookRoute(id: string, verb: string, age: JsNumber)
    requires AllDigits(id)
    ensures RouteOf(["webhooks", id, ":token"], verb, age) == RouteKey("", ["webhooks", id, ":token"])
  {
    var n := ["webhooks", id, ":token"];
    assert FirstReactions(n) == |n| by {
      assert IsDigit(id[0]) && !StartsWith(id, "reactions");
      assert !StartsWith("webhooks", "reactions") && !StartsWith(":token", "reactions");
    }
    RouteOfPlain(n, verb, age);
  }

  lemma WebhookPath(id: string, t: string, rest: seq<string>)
    requires AllDigits(id)
    requires TokenRun(t) == |t| >= 64
    requires rest == [] || DigitRun(rest[0]) < 15 || !IsWord(t)
    ensures Normalise(["webhooks", id, t] + rest)
         == ["webhooks", id, ":token"] + ReactionUserIds(ReactionIds(CollapseIds(rest)))
  {
    var x := ReactionUserIds(ReactionIds(CollapseIds(rest)));
    WebhookPathCollapse(id, t, rest);
    WebhookPathReactions(id, t, CollapseIds(rest));
    WebhookTokenOf(id, t, x);
  }

  /** The ID pass leaves "/webhooks/<digits>/<token>" alone and carries on after it. */
  lemma WebhookPathCollapse(id: string, t: string, rest: seq<string>)
    requires AllDigits(id)
    requires rest == [] || DigitRun(rest[0]) < 15 || !IsWord(t)
    ensures CollapseIds(["webhooks", id, t] + rest) == ["webhooks", id, t] + CollapseIds(rest)
  {
    WebhooksIsKept();
    assert !IsWord(id) by {
      assert IsDigit(id[0]);
    }
    KeptTripleCollapse("webhooks", id, t, rest);
  }

  lemma WebhooksIsKept()
    ensures "webhooks" in KeptCollections && IsWord("webhooks")
  {
    WordsAreWords();
  }

  /** "/<kept collection>/<non-word>/<segment>" followed by anything that does not start with an ID. */
  lemma KeptTripleCollapse(p: string, id: string, t: string, rest: seq<string>)
    requires p in KeptCollections && IsWord(p) && !IsWord(id)
    requires rest == [] || DigitRun(rest[0]) < 15 || !IsWord(t)
    ensures CollapseIds([p, id, t] + rest) == [p, id, t] + CollapseIds(rest)
  {
    var tail := [t] + rest;
    CollapsePlainStep(t, rest);
    CollapsePlainStep(id, tail);
    if DigitRun(id) >= 15 {
      CollapseKeptStep(p, id, tail);
    } else {
      CollapsePlainStep(p, [id] + tail);
    }
    Regroup3(p, id, t, rest);
    Regroup3(p, id, t, CollapseIds(rest));
  }

  lemma HeadTail<T>(p: seq<T>, x: seq<T>)
    requires p != []
    ensures (p + x)[0] == p[0] && (p + x)[1..] == p[1..] + x && p + x == [p[0]] + (p[1..] + x)
  {
  }

  lemma Assoc<T>(u: seq<T>, v: seq<T>, w: seq<T>)
    ensures (u + v) + w == u + (v + w)
  {
  }

  lemma Regroup3<T>(a: T, b: T, c: T, r: seq<T>)
    ensures [a, b, c] + r == [a, b] + ([c] + r) == [a] + ([b] + ([c] + r))
  {
  }

  /** One step of the ID pass over a segment that does not start an ID pair. */
  lemma CollapsePlainStep(p: string, x: seq<string>)
    requires x == [] || !IsWord(p) || DigitRun(x[0]) < 15
    ensures CollapseIds([p] + x) == [p] + CollapseIds(x)
  {
    assert ([p] + x)[1..] == x;
  }

  /** One step of the ID pass over a kept collection and its ID. */
  lemma CollapseKeptStep(p: string, id: string, x: seq<string>)
    requires p in KeptCollections && IsWord(p) && DigitRun(id) >= 15
    ensures CollapseIds([p, id] + x) == [p, id] + CollapseIds(x)
  {
    assert ([p, id] + x)[2..] == x;
  }

  /** Neither reaction pass touches the three webhook segments in front of `x`. */
  lemma WebhookPathReactions(id: string, t: string, x: seq<string>)
    requires AllDigits(id)
    requires |t| >= 64
    ensures ReactionUserIds(ReactionIds(["webhooks", id, t] + x)) == ["webhooks", id, t] + ReactionUserIds(ReactionIds(x))
  {
    var p := ["webhooks", id, t];
    assert id != "reactions" by {
      assert IsDigit(id[0]);
    }
    assert |t| != |"reactions"| && |"webhooks"| != |"reactions"|;
    assert forall k :: 0 <= k < |p| ==> p[k] != "reactions";
    PlainPrefixReactions(p, x);
    PlainPrefixReactions(p, ReactionIds(x));
  }

  /** Segments other than "reactions" pass through both reaction passes unchanged. */
  lemma {:induction false} PlainPrefixReactions(p: seq<string>, x: seq<string>)
    requires forall k :: 0 <= k < |p| ==> p[k] != "reactions"
    ensures ReactionIds(p + x) == p + ReactionIds(x)
    ensures ReactionUserIds(p + x) == p + ReactionUserIds(x)
  {
    if p == [] {
      assert p + x == x;
    } else {
      PlainPrefixReactions(p[1..], x);
      HeadTail(p, x);
      HeadTail(p, ReactionIds(x));
      HeadTail(p, ReactionUserIds(x));
    }
  }

  lemma WebhookTokenOf(id: string, t: string, x: seq<string>)
    requires AllDigits(id)
    requires TokenRun(t) == |t| >= 64
    ensures WebhookToken(["webhooks", id, t] + x) == ["webhooks", id, ":token"] + x
  {
    var path := ["webhooks", id, t] + x;
    assert t[TokenRun(t)..] == "";
    assert ":token" + "" == ":token";
    assert path[3..] == x;
  }

}
