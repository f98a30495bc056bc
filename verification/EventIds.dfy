/** Event ids: how producers build them and how statistics read the source back. */
module EventIds {
  import opened Models
  import opened Tables
  import opened Text

  /** buildEventID of the Telegram producer. */
  function TelegramId(chat: int, message: int, fileId: string, targetId: string): string {
    "tg" + [':'] + (Itoa(chat) + [':'] + (Itoa(message) + [':'] + (fileId + [':'] + targetId)))
  }

  /** The id of a Discord attachment or, with attachment "text", of a bare message. */
  function DiscordId(channel: string, message: string, attachment: string, targetId: string): string {
    "dc" + [':'] + (channel + [':'] + (message + [':'] + (attachment + [':'] + targetId)))
  }

  /** buildDigestEventID. */
  function DigestId(route: Route, unix: int): string {
    "digest" + [':'] + (route.sourcePlatform + [':'] + (route.sourceId + [':']
      + (route.targetPlatform + [':'] + (route.targetId + [':'] + Itoa(unix)))))
  }

  /** parseSourceFromEventID: platform and id of the source, if the id names one. */
  function ParseSource(eventId: string): Option<(string, string)> {
    var parts := Split(eventId, ':');
    if |parts| < 2 then None
    else if parts[0] == "tg" then Some(("telegram", parts[1]))
    else if parts[0] == "dc" then Some(("discord", parts[1]))
    else if parts[0] == "digest" && |parts| >= 3 then Some((Trim(parts[1]), Trim(parts[2])))
    else None
  }

  /** A colon-free head and the text after its colon determine each other. */
  lemma HeadAndTail(a: string, x: string, b: string, y: string)
    requires ':' !in a && ':' !in b && a + [':'] + x == b + [':'] + y
    ensures a == b && x == y
  {
    SplitAtSeparator(a, ':', x);
    SplitAtSeparator(b, ':', y);
    assert Split(a + [':'] + x, ':')[0] == a && Split(b + [':'] + y, ':')[0] == b;
    assert x == (a + [':'] + x)[|a| + 1..] && y == (b + [':'] + y)[|b| + 1..];
  }

  /** An id always determines chat and message, and the file id and target as one string. */
  lemma TelegramIdParts(c1: int, m1: int, f1: string, t1: string, c2: int, m2: int, f2: string, t2: string)
    requires TelegramId(c1, m1, f1, t1) == TelegramId(c2, m2, f2, t2)
    ensures c1 == c2 && m1 == m2 && f1 + [':'] + t1 == f2 + [':'] + t2
  {
    var x1, x2 := f1 + [':'] + t1, f2 + [':'] + t2;
    hide Itoa;
    var y1, y2 := Itoa(m1) + [':'] + x1, Itoa(m2) + [':'] + x2;
    var z1, z2 := Itoa(c1) + [':'] + y1, Itoa(c2) + [':'] + y2;
    HeadAndTail("tg", z1, "tg", z2);
    HeadAndTail(Itoa(c1), y1, Itoa(c2), y2);
    HeadAndTail(Itoa(m1), x1, Itoa(m2), x2);
    ItoaInjective(c1, c2);
    ItoaInjective(m1, m2);
  }

  /** What tells one delivery of a Telegram message from another. */
  datatype Delivery = Delivery(chat: int, message: int, fileId: string, targetPlatform: string, targetId: string)

  /** The id leaves the target's platform out. */
  function IdOf(d: Delivery): string {
    TelegramId(d.chat, d.message, d.fileId, d.targetId)
  }

  /** As long as file ids have no colon, two deliveries share an id exactly when they agree in all but the target's
      platform; the target itself may be a URL. */
  lemma SameIdIff(a: Delivery, b: Delivery)
    requires ':' !in a.fileId && ':' !in b.fileId
    ensures IdOf(a) == IdOf(b) <==> a == b.(targetPlatform := a.targetPlatform)
  {
    hide Itoa;
    if IdOf(a) == IdOf(b) {
      TelegramIdParts(a.chat, a.message, a.fileId, a.targetId, b.chat, b.message, b.fileId, b.targetId);
      HeadAndTail(a.fileId, a.targetId, b.fileId, b.targetId);
    }
  }

  /** So of two pairings of one chat whose targets have the same id on different platforms, the one enqueued second is
      skipped as a duplicate. */
  lemma OtherPlatformIsSkipped(db: Db, d: Delivery, platform: string, first: MediaEvent, second: MediaEvent, now: int, later: int, window: int)
    requires first.eventId == IdOf(d) && second.eventId == IdOf(d.(targetPlatform := platform))
    requires Enqueue(db, first, now, window).1 == Accepted
    ensures var after := Enqueue(db, first, now, window).0;
            Enqueue(after, second, later, window).1 != Accepted && Enqueue(after, second, later, window).0.pending == after.pending
  {
    hide TelegramId, Trim, TrimRoute;
    assert Prepared(first).eventId == Prepared(second).eventId;
    hide Prepared, Enqueue;
  }

  /** Some other combination of chat, message, file and target id has the same id. */
  ghost predicate IsShared(chat: int, message: int, fileId: string, targetId: string) {
    exists c: int, m: int, f: string, t: string ::
      (c, m, f, t) != (chat, message, fileId, targetId) && TelegramId(c, m, f, t) == TelegramId(chat, message, fileId, targetId)
  }

  /** The only colon of a string fixes where it is cut. */
  lemma OnlyColonCuts(f: string, t: string, f2: string, t2: string)
    requires ':' !in f && ':' !in t && f + [':'] + t == f2 + [':'] + t2
    ensures f == f2 && t == t2
  {
    var s := f + [':'] + t;
    forall j | 0 <= j < |s| && j != |f| ensures s[j] != ':' {
      assert s[j] == if j < |f| then f[j] else t[j - |f| - 1];
    }
    assert s[|f2|] == (f2 + [':'] + t2)[|f2|] == ':';
    assert f == s[..|f|] && f2 == (f2 + [':'] + t2)[..|f2|];
    assert t == s[|f| + 1..] && t2 == (f2 + [':'] + t2)[|f2| + 1..];
  }

  /** A colon in the file id lets part of it pass for the target, and one in the target for the file id. */
  lemma OtherCut(fileId: string, targetId: string) returns (f: string, t: string)
    requires ':' in fileId || ':' in targetId
    ensures f != fileId && f + [':'] + t == fileId + [':'] + targetId
  {
    if k :| 0 <= k < |fileId| && fileId[k] == ':' {
      f, t := fileId[..k], fileId[k + 1..] + [':'] + targetId;
      assert fileId == fileId[..k] + [':'] + fileId[k + 1..];
    } else {
      var k :| 0 <= k < |targetId| && targetId[k] == ':';
      f, t := fileId + [':'] + targetId[..k], targetId[k + 1..];
      assert targetId == targetId[..k] + [':'] + targetId[k + 1..];
    }
  }

  lemma SameCutSameId(chat: int, message: int, f1: string, t1: string, f2: string, t2: string)
    requires f1 + [':'] + t1 == f2 + [':'] + t2
    ensures TelegramId(chat, message, f1, t1) == TelegramId(chat, message, f2, t2)
  {
    assert f1 + ([':'] + t1) == f1 + [':'] + t1 && f2 + ([':'] + t2) == f2 + [':'] + t2;
  }

  /** Platforms aside, an id has other readings exactly when its file id or its target has a colon. */
  lemma SharedIffColon(chat: int, message: int, fileId: string, targetId: string)
    ensures IsShared(chat, message, fileId, targetId) <==> ':' in fileId || ':' in targetId
  {
    if ':' in fileId || ':' in targetId {
      var f, t := OtherCut(fileId, targetId);
      SameCutSameId(chat, message, f, t, fileId, targetId);
      assert (chat, message, f, t) != (chat, message, fileId, targetId);
    } else if IsShared(chat, message, fileId, targetId) {
      var c: int, m: int, f: string, t: string :|
        (c, m, f, t) != (chat, message, fileId, targetId) && TelegramId(c, m, f, t) == TelegramId(chat, message, fileId, targetId);
      TelegramIdParts(chat, message, fileId, targetId, c, m, f, t);
      OnlyColonCuts(fileId, targetId, f, t);
      assert false;
    }
  }

  /** Discord ids determine channel, message and attachment, which have no colons, and the target, which may. */
  lemma SameDiscordIdIff(c1: string, m1: string, a1: string, t1: string, c2: string, m2: string, a2: string, t2: string)
    requires ':' !in c1 && ':' !in m1 && ':' !in a1 && ':' !in c2 && ':' !in m2 && ':' !in a2
    ensures DiscordId(c1, m1, a1, t1) == DiscordId(c2, m2, a2, t2) <==> c1 == c2 && m1 == m2 && a1 == a2 && t1 == t2
  {
    var x1, x2 := a1 + [':'] + t1, a2 + [':'] + t2;
    var y1, y2 := m1 + [':'] + x1, m2 + [':'] + x2;
    var z1, z2 := c1 + [':'] + y1, c2 + [':'] + y2;
    assert DiscordId(c1, m1, a1, t1) == "dc" + [':'] + z1 && DiscordId(c2, m2, a2, t2) == "dc" + [':'] + z2;
    if DiscordId(c1, m1, a1, t1) == DiscordId(c2, m2, a2, t2) {
      HeadAndTail("dc", z1, "dc", z2);
      HeadAndTail(c1, y1, c2, y2);
      HeadAndTail(m1, x1, m2, x2);
      HeadAndTail(a1, t1, a2, t2);
    }
  }

  /** Destinations on platforms without a colon in their name share a rate counter exactly when they are the same. */
  lemma DestinationsShareIff(a: Route, b: Route)
    requires ':' !in a.targetPlatform && ':' !in b.targetPlatform
    ensures DestKey(a) == DestKey(b) <==> a.targetPlatform == b.targetPlatform && a.targetId == b.targetId
  {
    if DestKey(a) == DestKey(b) {
      HeadAndTail(a.targetPlatform, a.targetId, b.targetPlatform, b.targetId);
    }
  }

  /** An id of any other kind names no source. */
  lemma OtherIdsHaveNoSource(kind: string, rest: string)
    requires ':' !in kind
    ensures ParseSource(kind) == None
    ensures kind != "tg" && kind != "dc" && kind != "digest" ==> ParseSource(kind + [':'] + rest) == None
  {
    SplitWithoutSeparator(kind, ':');
    SplitAtSeparator(kind, ':', rest);
  }

  /** A colon-free tail and the text before its colon determine each other. */
  lemma TailAndHead(x: string, a: string, y: string, b: string)
    requires ':' !in a && ':' !in b && x + [':'] + a == y + [':'] + b
    ensures x == y && a == b
  {
    var s, t := x + [':'] + a, y + [':'] + b;
    forall j | |x| < j < |s| ensures s[j] != ':' {
      assert s[j] == a[j - |x| - 1];
    }
    forall j | |y| < j < |t| ensures t[j] != ':' {
      assert t[j] == b[j - |y| - 1];
    }
    assert s[|x|] == ':' == t[|y|];
    assert x == s[..|x|] && y == t[..|y|] && a == s[|x| + 1..] && b == t[|y| + 1..];
  }

  /** Digest ids of colon-free platforms and sources agree exactly when route and second do; the target may have colons. */
  lemma SameDigestIdIff(a: Route, u: int, b: Route, v: int)
    requires ':' !in a.sourcePlatform && ':' !in a.sourceId && ':' !in a.targetPlatform
    requires ':' !in b.sourcePlatform && ':' !in b.sourceId && ':' !in b.targetPlatform
    ensures DigestId(a, u) == DigestId(b, v) <==> a == b && u == v
  {
    hide Itoa;
    var x1, x2 := a.targetId + [':'] + Itoa(u), b.targetId + [':'] + Itoa(v);
    var y1, y2 := a.targetPlatform + [':'] + x1, b.targetPlatform + [':'] + x2;
    var z1, z2 := a.sourceId + [':'] + y1, b.sourceId + [':'] + y2;
    var p1, p2 := a.sourcePlatform + [':'] + z1, b.sourcePlatform + [':'] + z2;
    assert DigestId(a, u) == "digest" + [':'] + p1 && DigestId(b, v) == "digest" + [':'] + p2;
    if DigestId(a, u) == DigestId(b, v) {
      HeadAndTail("digest", p1, "digest", p2);
      HeadAndTail(a.sourcePlatform, z1, b.sourcePlatform, z2);
      HeadAndTail(a.sourceId, y1, b.sourceId, y2);
      HeadAndTail(a.targetPlatform, x1, b.targetPlatform, x2);
      TailAndHead(a.targetId, Itoa(u), b.targetId, Itoa(v));
      ItoaInjective(u, v);
    }
  }

  lemma TelegramSource(chat: int, message: int, fileId: string, targetId: string)
    ensures ParseSource(TelegramId(chat, message, fileId, targetId)) == Some(("telegram", Itoa(chat)))
  {
    var y := Itoa(message) + [':'] + (fileId + [':'] + targetId);
    SplitAtSeparator("tg", ':', Itoa(chat) + [':'] + y);
    SplitAtSeparator(Itoa(chat), ':', y);
  }

  lemma DiscordSource(channel: string, message: string, attachment: string, targetId: string)
    requires ':' !in channel
    ensures ParseSource(DiscordId(channel, message, attachment, targetId)) == Some(("discord", channel))
  {
    var y := message + [':'] + (attachment + [':'] + targetId);
    SplitAtSeparator("dc", ':', channel + [':'] + y);
    SplitAtSeparator(channel, ':', y);
  }

  lemma DigestSource(route: Route, unix: int)
    requires ':' !in route.sourcePlatform && ':' !in route.sourceId
    ensures ParseSource(DigestId(route, unix)) == Some((Trim(route.sourcePlatform), Trim(route.sourceId)))
  {
    var z := route.targetPlatform + [':'] + (route.targetId + [':'] + Itoa(unix));
    var y := route.sourceId + [':'] + z;
    SplitAtSeparator("digest", ':', route.sourcePlatform + [':'] + y);
    SplitAtSeparator(route.sourcePlatform, ':', y);
    SplitAtSeparator(route.sourceId, ':', z);
  }
}
