// internal/domain: webhook events, and the WebSocket room names printed for them and parsed back.

module Uuids {
  import opened Wrappers
  import opened Text

  newtype Byte = x: int | 0 <= x < 256

  /** The sixteen octets of a UUID. */
  type Uuid = u: seq<Byte> | |u| == 16 witness [0, 0, 0, 0, 0, 0, 0, 0, 0, 0, 0, 0, 0, 0, 0, 0]

  const NIL: Uuid := [0, 0, 0, 0, 0, 0, 0, 0, 0, 0, 0, 0, 0, 0, 0, 0]

  const LENGTH: nat := 36

  predicate DashAt(i: int) {
    i == 8 || i == 13 || i == 18 || i == 23
  }

  /** Where the n-th hexadecimal digit stands in the text form 8-4-4-4-12. */
  function DigitPos(n: nat): nat {
    n + (if n < 8 then 0 else if n < 12 then 1 else if n < 16 then 2 else if n < 20 then 3 else 4)
  }

  /** The digit that stands at text position i, which holds no dash. */
  function DigitIndex(i: nat): (n: nat)
    requires i < LENGTH && !DashAt(i)
    ensures n < 32 && DigitPos(n) == i
  {
    i - (if i < 8 then 0 else if i < 13 then 1 else if i < 18 then 2 else if i < 23 then 3 else 4)
  }

  function HexDigit(n: int): char
    requires 0 <= n < 16
  {
    "0123456789abcdef"[n]
  }

  predicate IsHex(c: char) {
    '0' <= c <= '9' || 'a' <= c <= 'f' || 'A' <= c <= 'F'
  }

  function HexValue(c: char): (n: int)
    requires IsHex(c)
    ensures 0 <= n < 16
  {
    if c <= '9' then c as int - '0' as int
    else if c <= 'F' then c as int - 'A' as int + 10
    else c as int - 'a' as int + 10
  }

  function Nibble(u: Uuid, n: nat): (d: int)
    requires n < 32
    ensures 0 <= d < 16
  {
    if n % 2 == 0 then u[n / 2] as int / 16 else u[n / 2] as int % 16
  }

  /** The text form of section 4 of RFC 9562, in lower case. */
  function Print(u: Uuid): string {
    seq(LENGTH, i requires 0 <= i < LENGTH => if DashAt(i) then '-' else HexDigit(Nibble(u, DigitIndex(i))))
  }

  predicate WellFormed(s: string) {
    && |s| == LENGTH
    && forall i :: 0 <= i < LENGTH ==> if DashAt(i) then s[i] == '-' else IsHex(s[i])
  }

  function OctetAt(s: string, k: nat): Byte
    requires WellFormed(s) && k < 16
  {
    assert IsHex(s[DigitPos(2 * k)]) && IsHex(s[DigitPos(2 * k + 1)]);
    (HexValue(s[DigitPos(2 * k)]) * 16 + HexValue(s[DigitPos(2 * k + 1)])) as Byte
  }

  const BARE_LENGTH: nat := 32
  const WRAPPED_LENGTH: nat := 38

  /** The library also reads the digits without dashes, and the text with one character, any, on either side. */
  function Dashed(s: string): string {
    if |s| == WRAPPED_LENGTH then s[1..|s| - 1]
    else if |s| == BARE_LENGTH then s[..8] + "-" + s[8..12] + "-" + s[12..16] + "-" + s[16..20] + "-" + s[20..]
    else s
  }

  function Parse(s: string): Option<Uuid> {
    if WellFormed(Dashed(s)) then Some(seq(16, k requires 0 <= k < 16 => OctetAt(Dashed(s), k))) else None
  }

  /** Where the two digits of each octet stand. */
  const OCTETS: seq<nat> := [0, 2, 4, 6, 9, 11, 14, 16, 19, 21, 24, 26, 28, 30, 32, 34]

  lemma OctetPosition(k: nat)
    requires k < 16
    ensures OCTETS[k] == DigitPos(2 * k) && OCTETS[k] + 1 == DigitPos(2 * k + 1)
    ensures !DashAt(OCTETS[k]) && !DashAt(OCTETS[k] + 1) && OCTETS[k] + 1 < LENGTH
  {
  }

  /** The layout of the text, character by character: four dashes, and every octet's high digit before its low one. */
  lemma PrintLayout(u: Uuid, k: nat)
    requires k < 16
    ensures |Print(u)| == 36 && forall i :: i in [8, 13, 18, 23] ==> Print(u)[i] == '-'
    ensures Print(u)[OCTETS[k]] == "0123456789abcdef"[u[k] as int / 16]
    ensures Print(u)[OCTETS[k] + 1] == "0123456789abcdef"[u[k] as int % 16]
  {
    OctetPosition(k);
    hide OCTETS;
    assert DigitIndex(DigitPos(2 * k)) == 2 * k && DigitIndex(DigitPos(2 * k + 1)) == 2 * k + 1;
  }

  lemma HexRoundTrip(n: int)
    requires 0 <= n < 16
    ensures IsHex(HexDigit(n)) && HexValue(HexDigit(n)) == n && HexDigit(n) != ':'
  {
  }

  lemma PrintIsWellFormed(u: Uuid)
    ensures WellFormed(Print(u)) && ColonFree(Print(u))
  {
    forall i | 0 <= i < LENGTH
      ensures if DashAt(i) then Print(u)[i] == '-' else IsHex(Print(u)[i])
      ensures Print(u)[i] != ':'
    {
      if !DashAt(i) {
        HexRoundTrip(Nibble(u, DigitIndex(i)));
      }
    }
  }

  lemma DigitPrinted(u: Uuid, n: nat)
    requires n < 32
    ensures WellFormed(Print(u)) && !DashAt(DigitPos(n)) && HexValue(Print(u)[DigitPos(n)]) == Nibble(u, n)
  {
    PrintIsWellFormed(u);
    assert DigitIndex(DigitPos(n)) == n;
    HexRoundTrip(Nibble(u, n));
  }

  lemma OctetPrinted(u: Uuid, k: nat)
    requires k < 16 && WellFormed(Print(u))
    ensures OctetAt(Print(u), k) == u[k]
  {
    hide Print, WellFormed;
    DigitPrinted(u, 2 * k);
    DigitPrinted(u, 2 * k + 1);
  }

  /** Parsing undoes printing. */
  lemma ParsePrint(u: Uuid)
    ensures Parse(Print(u)) == Some(u)
  {
    PrintIsWellFormed(u);
    PrintLength(u);
    hide Print, WellFormed, OctetAt;
    forall k: nat | k < 16 ensures OctetAt(Print(u), k) == u[k] {
      OctetPrinted(u, k);
    }
    assert Parse(Print(u)).value == u;
  }

  lemma PrintLength(u: Uuid)
    ensures |Print(u)| == LENGTH
  {
  }

  function UpperHex(c: char): char {
    if 'a' <= c <= 'f' then c - 'a' + 'A' else c
  }

  lemma UpperIsRead(c: char)
    requires IsHex(c)
    ensures IsHex(UpperHex(c)) && HexValue(UpperHex(c)) == HexValue(c)
  {
  }

  function Upper(s: string): string {
    seq(|s|, i requires 0 <= i < |s| => UpperHex(s[i]))
  }

  lemma UpperIsWellFormed(s: string)
    requires WellFormed(s)
    ensures WellFormed(Upper(s))
  {
    forall i | 0 <= i < LENGTH ensures if DashAt(i) then Upper(s)[i] == '-' else IsHex(Upper(s)[i]) {
      if !DashAt(i) {
        UpperIsRead(s[i]);
      }
    }
  }

  lemma UpperOctet(s: string, k: nat)
    requires WellFormed(s) && WellFormed(Upper(s)) && k < 16
    ensures OctetAt(Upper(s), k) == OctetAt(s, k)
  {
    OctetPosition(k);
    UpperIsRead(s[DigitPos(2 * k)]);
    UpperIsRead(s[DigitPos(2 * k + 1)]);
  }

  /** Capital digits are read as small ones. */
  lemma ParseUpper(u: Uuid)
    ensures Parse(Upper(Print(u))) == Some(u)
  {
    hide Print, WellFormed, OctetAt;
    PrintIsWellFormed(u);
    ParsePrint(u);
    PrintLayout(u, 0);
    var s := Print(u);
    UpperIsWellFormed(s);
    forall k: nat | k < 16 ensures OctetAt(Upper(s), k) == OctetAt(s, k) {
      UpperOctet(s, k);
    }
    assert Parse(Upper(s)).value == Parse(s).value;
  }

  lemma CutDash(s: string, from: nat, at: nat)
    requires from <= at < |s| && s[at] == '-'
    ensures s[from..] == s[from..at] + "-" + s[at + 1..]
  {
  }

  function Bare(s: string): string
    requires |s| == LENGTH
  {
    s[..8] + s[9..13] + s[14..18] + s[19..23] + s[24..]
  }

  lemma BareParts(s: string)
    requires |s| == LENGTH
    ensures
      var b := Bare(s);
      && |b| == BARE_LENGTH && b[..8] == s[..8] && b[8..12] == s[9..13] && b[12..16] == s[14..18]
      && b[16..20] == s[19..23] && b[20..] == s[24..]
  {
  }

  lemma DashedBare(s: string)
    requires |s| == LENGTH && s[8] == s[13] == s[18] == s[23] == '-'
    ensures Dashed(Bare(s)) == s
  {
    BareParts(s);
    hide Bare;
    CutDash(s, 0, 8);
    CutDash(s, 9, 13);
    CutDash(s, 14, 18);
    CutDash(s, 19, 23);
    assert s[0..] == s && s[0..8] == s[..8];
  }

  /** The digits alone, and the text within one character on either side, any two, are read as well. */
  lemma ParseSpellings(u: Uuid, a: char, b: char)
    ensures
      var s := Print(u);
      && |s| == 36
      && Parse(s[..8] + s[9..13] + s[14..18] + s[19..23] + s[24..]) == Some(u)
      && Parse([a] + s + [b]) == Some(u)
  {
    hide Print, WellFormed, OctetAt;
    ParsePrint(u);
    PrintLayout(u, 0);
    var s := Print(u);
    DashedBare(s);
    assert ([a] + s + [b])[1..|s| + 1] == s;
    assert Dashed([a] + s + [b]) == s == Dashed(s);
  }

  predicate HasUpperHex(s: string) {
    exists i :: 0 <= i < |s| && 'A' <= s[i] <= 'F'
  }

  lemma NibbleParsed(s: string, n: nat)
    requires WellFormed(Dashed(s)) && n < 32
    ensures IsHex(Dashed(s)[DigitPos(n)]) && Nibble(Parse(s).value, n) == HexValue(Dashed(s)[DigitPos(n)])
  {
    var k := n / 2;
    assert !DashAt(DigitPos(2 * k)) && !DashAt(DigitPos(2 * k + 1));
    assert Parse(s).value[k] == OctetAt(Dashed(s), k);
    assert n == 2 * k || n == 2 * k + 1;
  }

  lemma HexReprint(c: char)
    requires IsHex(c)
    ensures HexDigit(HexValue(c)) == c <==> !('A' <= c <= 'F')
  {
  }

  lemma DigitReprinted(s: string, i: nat)
    requires WellFormed(Dashed(s)) && i < LENGTH
    ensures Print(Parse(s).value)[i] == Dashed(s)[i] <==> !('A' <= Dashed(s)[i] <= 'F')
  {
    if !DashAt(i) {
      NibbleParsed(s, DigitIndex(i));
      HexReprint(Dashed(s)[i]);
    }
  }

  /** The spelling that printing gives. */
  predicate Canonical(s: string) {
    |s| == LENGTH && !HasUpperHex(s)
  }

  /** Of all the text that parses, printing undoes parsing exactly on the 36-character spelling in lower case. */
  lemma PrintParse(s: string)
    requires Parse(s).Some?
    ensures Print(Parse(s).value) == s <==> Canonical(s)
  {
    if |s| == LENGTH {
      forall i | 0 <= i < LENGTH ensures Print(Parse(s).value)[i] == s[i] <==> !('A' <= s[i] <= 'F') {
        DigitReprinted(s, i);
      }
    }
  }

  lemma PrintInjective(u: Uuid, v: Uuid)
    requires Print(u) == Print(v)
    ensures u == v
  {
    ParsePrint(u);
    ParsePrint(v);
  }
}

module Events {
  import opened Wrappers
  import opened Uuids

  /** `entityId` is what the payload's GetID returns, when the payload has that method. */
  datatype WebhookEvent = WebhookEvent(kind: string, entityId: Option<Uuid>, orgId: Option<Uuid>)

  const INVOICE_CREATED := "invoice.created"
  const INVOICE_PAID := "invoice.paid"
  const NEWS_PUBLISHED := "news.published"
  const NEWS_DELETED := "news.deleted"
}

module Rooms {
  import opened Wrappers
  import opened Text
  import opened Uuids
  import opened Events

  const ORG := "org"

  predicate ValidEntityType(t: string) {
    t == "invoice" || t == "news" || t == "media" || t == "comment"
  }

  function OrgRoom(org: Uuid): string {
    ORG + ":" + Print(org)
  }

  function EntityRoom(org: Uuid, entity: string, id: Uuid): string {
    ORG + ":" + Print(org) + ":" + entity + ":" + Print(id)
  }

  function EntityTypeOf(kind: string): Option<string> {
    if kind == INVOICE_CREATED || kind == INVOICE_PAID then Some("invoice")
    else if kind == NEWS_PUBLISHED || kind == NEWS_DELETED then Some("news")
    else None
  }

  function EntityRoomForEvent(e: WebhookEvent): string {
    if e.orgId.None? then ""
    else if EntityTypeOf(e.kind).Some? && e.entityId.Some? then
      EntityRoom(e.orgId.value, EntityTypeOf(e.kind).value, e.entityId.value)
    else ""
  }

  function RoomsForEvent(e: WebhookEvent): seq<string> {
    if e.orgId.Some? && e.orgId.value != NIL then
      [OrgRoom(e.orgId.value)] + (if EntityRoomForEvent(e) != "" then [EntityRoomForEvent(e)] else [])
    else []
  }

  predicate IsValidRoomName(room: string) {
    var parts := Split(room, ':');
    if |parts| == 2 && parts[0] == ORG then Parse(parts[1]).Some?
    else if |parts| == 4 && parts[0] == ORG then
      Parse(parts[1]).Some? && ValidEntityType(parts[2]) && Parse(parts[3]).Some?
    else false
  }

  function ExtractOrgID(room: string): Uuid {
    var parts := Split(room, ':');
    if |parts| >= 2 && parts[0] == ORG && Parse(parts[1]).Some? then Parse(parts[1]).value else NIL
  }

  lemma OrgRoomParts(org: Uuid)
    ensures Split(OrgRoom(org), ':') == [ORG, Print(org)]
  {
    PrintIsWellFormed(org);
    SplitHead(ORG, Print(org), ':');
    SplitWhole(Print(org), ':');
  }

  lemma EntityRoomParts(org: Uuid, entity: string, id: Uuid)
    requires ColonFree(entity)
    ensures Split(EntityRoom(org, entity, id), ':') == [ORG, Print(org), entity, Print(id)]
  {
    hide WellFormed, Print;
    PrintIsWellFormed(org);
    PrintIsWellFormed(id);
    var last := Print(id);
    var tail := entity + [':'] + last;
    assert EntityRoom(org, entity, id) == ORG + [':'] + (Print(org) + [':'] + tail);
    SplitHead(ORG, Print(org) + [':'] + tail, ':');
    SplitHead(Print(org), tail, ':');
    SplitHead(entity, last, ':');
    SplitWhole(last, ':');
  }

  /** What a room name of an event stands for. */
  datatype Room = OrgLevel(org: Uuid) | EntityLevel(org: Uuid, entity: string, id: Uuid)

  /** The rooms of an event, before they are printed. */
  function RoomValues(e: WebhookEvent): seq<Room> {
    if e.orgId.None? || e.orgId.value == NIL then []
    else if EntityTypeOf(e.kind).Some? && e.entityId.Some? then
      [OrgLevel(e.orgId.value), EntityLevel(e.orgId.value, EntityTypeOf(e.kind).value, e.entityId.value)]
    else [OrgLevel(e.orgId.value)]
  }

  function PrintRoom(r: Room): string {
    match r
    case OrgLevel(org) => OrgRoom(org)
    case EntityLevel(org, entity, id) => EntityRoom(org, entity, id)
  }

  function ParseRoom(room: string): Option<Room> {
    if !IsValidRoomName(room) then None
    else
      var parts := Split(room, ':');
      if |parts| == 2 then Some(OrgLevel(Parse(parts[1]).value))
      else Some(EntityLevel(Parse(parts[1]).value, parts[2], Parse(parts[3]).value))
  }

  lemma RoomsArePrinted(e: WebhookEvent, i: nat)
    requires i < |RoomsForEvent(e)|
    ensures |RoomValues(e)| == |RoomsForEvent(e)| && RoomsForEvent(e)[i] == PrintRoom(RoomValues(e)[i])
  {
    if e.entityId.Some? && EntityTypeOf(e.kind).Some? {
      assert |EntityRoomForEvent(e)| > 0;
    }
  }

  /** The rooms of an event, by its fields: none without an organisation, the organisation's room, and for invoices and
      news with an id the entity's room after it. */
  lemma RoomsByField(e: WebhookEvent)
    ensures e.orgId.None? || e.orgId.value == NIL ==> RoomsForEvent(e) == []
    ensures e.orgId.Some? && e.orgId.value != NIL ==>
      var org := "org:" + Print(e.orgId.value);
      if (e.kind == "invoice.created" || e.kind == "invoice.paid") && e.entityId.Some? then
        RoomsForEvent(e) == [org, org + ":invoice:" + Print(e.entityId.value)]
      else if (e.kind == "news.published" || e.kind == "news.deleted") && e.entityId.Some? then
        RoomsForEvent(e) == [org, org + ":news:" + Print(e.entityId.value)]
      else RoomsForEvent(e) == [org]
  {
    hide Print;
    if e.orgId.Some? && e.orgId.value != NIL {
      var org := Print(e.orgId.value);
      assert ORG + ":" + org == "org:" + org;
      if e.entityId.Some? {
        var id := Print(e.entityId.value);
        assert ORG + ":" + org + ":" + "invoice" + ":" + id == "org:" + org + ":invoice:" + id;
        assert ORG + ":" + org + ":" + "news" + ":" + id == "org:" + org + ":news:" + id;
      }
    }
  }

  /** Among entity types without a colon, exactly the four commentable ones have rooms. */
  lemma FourEntityTypes(org: Uuid, entity: string, id: Uuid)
    requires ColonFree(entity)
    ensures IsValidRoomName(EntityRoom(org, entity, id)) <==> entity in {"invoice", "news", "media", "comment"}
    ensures IsValidRoomName(OrgRoom(org))
  {
    hide Parse, Dashed, WellFormed, Print;
    EntityRoomParts(org, entity, id);
    OrgRoomParts(org);
    ParsePrint(org);
    ParsePrint(id);
  }

  /** Every printed name is valid, gives back the event's organisation, and parses to what was printed. */
  lemma RoomRoundTrip(e: WebhookEvent, i: nat)
    requires i < |RoomsForEvent(e)|
    ensures
      var name := RoomsForEvent(e)[i];
      && IsValidRoomName(name)
      && |RoomValues(e)| == |RoomsForEvent(e)|
      && ParseRoom(name) == Some(RoomValues(e)[i])
      && e.orgId == Some(ExtractOrgID(name))
  {
    hide Parse, Dashed, WellFormed, Print;
    RoomsArePrinted(e, i);
    ParsePrint(e.orgId.value);
    match RoomValues(e)[i]
    case OrgLevel(org) => OrgRoomParts(org);
    case EntityLevel(org, entity, id) =>
      EntityRoomParts(org, entity, id);
      ParsePrint(id);
  }

  /** Two events share a room name only for the same organisation, entity type and entity id. */
  lemma RoomNamesIdentify(e: WebhookEvent, i: nat, f: WebhookEvent, j: nat)
    requires i < |RoomsForEvent(e)| && j < |RoomsForEvent(f)|
    requires RoomsForEvent(e)[i] == RoomsForEvent(f)[j]
    ensures e.orgId == f.orgId && i == j
    ensures i == 1 ==> EntityTypeOf(e.kind) == EntityTypeOf(f.kind) && e.entityId == f.entityId
  {
    hide IsValidRoomName, ParseRoom, ExtractOrgID;
    RoomRoundTrip(e, i);
    RoomRoundTrip(f, j);
  }

  lemma JoinFour(a: string, b: string, c: string, d: string)
    ensures Join([a, b, c, d], ':') == a + ":" + b + ":" + c + ":" + d
  {
    assert [a, b, c, d][1..] == [b, c, d] && [b, c, d][1..] == [c, d] && [c, d][1..] == [d];
    assert Join([c, d], ':') == c + [':'] + d;
    assert Join([b, c, d], ':') == b + [':'] + (c + [':'] + d);
  }

  /** A valid name is the printed form of what it parses to if and only if its ids are in the canonical spelling. */
  lemma ValidNameReprints(room: string)
    requires IsValidRoomName(room)
    ensures
      var parts := Split(room, ':');
      PrintRoom(ParseRoom(room).value) == room <==> Canonical(parts[1]) && (|parts| == 4 ==> Canonical(parts[3]))
  {
    hide Parse, Dashed, WellFormed, Print, Canonical;
    var parts := Split(room, ':');
    JoinSplit(room, ':');
    PrintParse(parts[1]);
    if |parts| == 2 {
      assert parts == [ORG, parts[1]];
      assert parts[1..] == [parts[1]];
      OrgRoomParts(Parse(parts[1]).value);
    } else {
      assert parts == [ORG, parts[1], parts[2], parts[3]];
      JoinFour(ORG, parts[1], parts[2], parts[3]);
      PrintParse(parts[3]);
      EntityRoomParts(Parse(parts[1]).value, parts[2], Parse(parts[3]).value);
    }
  }

  /** The name is "org:" and an id in one of its spellings, with nothing or a colon after it. */
  predicate StartsWithOrg(room: string, id: string) {
    Parse(id).Some? && ColonFree(id) && (room == ORG + ":" + id || HasPrefix(room, ORG + ":" + id + ":"))
  }

  lemma OrgOfStart(room: string, id: string)
    requires StartsWithOrg(room, id)
    ensures ExtractOrgID(room) == Parse(id).value
  {
    hide Parse, Dashed, WellFormed;
    var rest := if room == ORG + ":" + id then "" else room[|ORG + ":" + id + ":"|..];
    if room == ORG + ":" + id {
      SplitHead(ORG, id, ':');
      SplitWhole(id, ':');
    } else {
      assert room == ORG + [':'] + (id + [':'] + rest);
      SplitHead(ORG, id + [':'] + rest, ':');
      SplitHead(id, rest, ':');
    }
  }

  lemma StartOfParts(room: string)
    requires
      var parts := Split(room, ':');
      |parts| >= 2 && parts[0] == ORG && Parse(parts[1]).Some?
    ensures StartsWithOrg(room, Split(room, ':')[1])
  {
    var parts := Split(room, ':');
    JoinSplit(room, ':');
    SplitPartsFree(room, ':');
    if |parts| == 2 {
      assert parts[1..] == [parts[1]];
    } else {
      var rest := Join(parts[1..][1..], ':');
      assert room == ORG + [':'] + (parts[1] + [':'] + rest);
      assert room == ORG + ":" + parts[1] + ":" + rest;
    }
  }

  /** What is read off a name: a non-nil organisation exactly when the name starts with that organisation's id,
      whatever follows it. */
  lemma ExtractedOrg(room: string, org: Uuid)
    requires org != NIL
    ensures ExtractOrgID(room) == org <==> exists id :: StartsWithOrg(room, id) && Parse(id).value == org
  {
    if ExtractOrgID(room) == org {
      StartOfParts(room);
    }
    if id :| StartsWithOrg(room, id) && Parse(id).value == org {
      OrgOfStart(room, id);
    }
  }

  /** An organisation id is also read off a name that is not a valid room: the promise that an invalid name gives the
      nil id holds exactly for names that are valid or do not start with the id of an organisation. */
  lemma InvalidNamesGiveNil(room: string)
    ensures (!IsValidRoomName(room) ==> ExtractOrgID(room) == NIL) <==>
      IsValidRoomName(room) || forall id :: StartsWithOrg(room, id) ==> Parse(id).value == NIL
  {
    if ExtractOrgID(room) != NIL {
      ExtractedOrg(room, ExtractOrgID(room));
    } else {
      forall id | StartsWithOrg(room, id) ensures Parse(id).value == NIL {
        OrgOfStart(room, id);
      }
    }
  }

  lemma InvalidNameWithOrg(org: Uuid)
    requires org != NIL
    ensures !IsValidRoomName(OrgRoom(org) + ":x") && ExtractOrgID(OrgRoom(org) + ":x") == org
  {
    hide Parse, Dashed, WellFormed, Print;
    PrintIsWellFormed(org);
    ParsePrint(org);
    assert OrgRoom(org) + ":x" == ORG + [':'] + (Print(org) + [':'] + "x");
    SplitHead(ORG, Print(org) + [':'] + "x", ':');
    SplitHead(Print(org), "x", ':');
    SplitWhole("x", ':');
  }

  // ---- The bridge from the event bus to the hub ----

  /** A message handed to the hub for the room `target`; `room` is the room written in the envelope. */
  datatype Broadcast = Broadcast(target: string, room: string, event: WebhookEvent)

  class Hub {
    var sent: seq<Broadcast>

    method PublishToRoom(target: string, room: string, event: WebhookEvent)
      modifies this
      ensures sent == old(sent) + [Broadcast(target, room, event)]
    {
      sent := sent + [Broadcast(target, room, event)];
    }
  }

  class WsEventBridge {
    const hub: Hub

    constructor (hub: Hub)
      ensures this.hub == hub
    {
      this.hub := hub;
    }

    /** The handler the bridge subscribes: one message per room, each naming its own room, all of them in valid rooms of
        the event's organisation. */
    method HandleEvent(e: WebhookEvent)
      modifies hub
      ensures |hub.sent| == |old(hub.sent)| + |RoomsForEvent(e)| && old(hub.sent) <= hub.sent
      ensures forall i :: 0 <= i < |RoomsForEvent(e)| ==>
        hub.sent[|old(hub.sent)| + i] == Broadcast(RoomsForEvent(e)[i], RoomsForEvent(e)[i], e)
      ensures forall i :: |old(hub.sent)| <= i < |hub.sent| ==>
        IsValidRoomName(hub.sent[i].target) && e.orgId == Some(ExtractOrgID(hub.sent[i].target))
    {
      hide *;
      var rooms := RoomsForEvent(e);
      for i := 0 to |rooms|
        invariant |hub.sent| == |old(hub.sent)| + i && old(hub.sent) <= hub.sent
        invariant forall k :: 0 <= k < i ==> hub.sent[|old(hub.sent)| + k] == Broadcast(rooms[k], rooms[k], e)
        invariant forall k :: |old(hub.sent)| <= k < |hub.sent| ==>
          IsValidRoomName(hub.sent[k].target) && e.orgId == Some(ExtractOrgID(hub.sent[k].target))
      {
        RoomRoundTrip(e, i);
        hub.PublishToRoom(rooms[i], rooms[i], e);
      }
    }
  }
}
