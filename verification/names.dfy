/** Names of resctrl groups, partitions and devices, and why they never collide. */
module Names {
  import opened Results
  import opened GoText

  // ----- claim UIDs

  /** `sanitizeUID`: the UID without its hyphens. */
  function SanitizeUID(uid: string): string {
    if uid == "" then ""
    else (if uid[0] == '-' then "" else [uid[0]]) + SanitizeUID(uid[1..])
  }

  predicate HyphenAt(i: nat) {
    i == 8 || i == 13 || i == 18 || i == 23
  }

  /** The text form of a UUID, section 4 of RFC 9562. */
  predicate IsUUID(uid: string) {
    |uid| == 36 && forall i | 0 <= i < 36 :: if HyphenAt(i) then uid[i] == '-' else IsDigit(uid[i])
  }

  lemma {:induction false} SanitizeSplit(a: string, b: string)
    ensures SanitizeUID(a + b) == SanitizeUID(a) + SanitizeUID(b)
  {
    if a == "" {
      assert a + b == b;
    } else {
      assert (a + b)[1..] == a[1..] + b;
      SanitizeSplit(a[1..], b);
    }
  }

  lemma {:induction false} SanitizePlain(a: string)
    requires '-' !in a
    ensures SanitizeUID(a) == a
  {
    if a != "" { SanitizePlain(a[1..]); }
  }

  /** Every hyphen is dropped and every other character kept, wherever it stands. */
  lemma SanitizeAt(a: string, c: char, b: string)
    ensures SanitizeUID(a + [c] + b) == SanitizeUID(a) + (if c == '-' then "" else [c]) + SanitizeUID(b)
  {
    SanitizeSplit(a + [c], b);
    SanitizeSplit(a, [c]);
    assert [c][1..] == "";
  }

  /** The five digit groups of a UUID, run together. */
  function Compact(uid: string): string
    requires |uid| == 36
  {
    uid[..8] + uid[9..13] + uid[14..18] + uid[19..23] + uid[24..]
  }

  lemma SanitizeHyphen(b: string)
    ensures SanitizeUID("-" + b) == SanitizeUID(b)
  {
    assert ("-" + b)[1..] == b;
  }

  lemma SanitizeGroup(a: string, b: string)
    requires '-' !in a
    ensures SanitizeUID(a + "-" + b) == a + SanitizeUID(b)
  {
    assert a + "-" + b == a + ("-" + b);
    SanitizePlain(a);
    SanitizeSplit(a, "-" + b);
    SanitizeHyphen(b);
  }

  lemma SanitizeIsCompact(uid: string)
    requires IsUUID(uid)
    ensures SanitizeUID(uid) == Compact(uid)
  {
    var e, d, c, b := uid[24..], uid[19..], uid[14..], uid[9..];
    SanitizePlain(e);
    assert d == uid[19..23] + "-" + e;
    SanitizeGroup(uid[19..23], e);
    assert c == uid[14..18] + "-" + d;
    SanitizeGroup(uid[14..18], d);
    assert b == uid[9..13] + "-" + c;
    SanitizeGroup(uid[9..13], c);
    assert uid == uid[..8] + "-" + b;
    SanitizeGroup(uid[..8], b);
    assert SanitizeUID(uid) == uid[..8] + (uid[9..13] + (uid[14..18] + (uid[19..23] + e)));
    JoinFive(uid[..8], uid[9..13], uid[14..18], uid[19..23], e);
  }

  lemma JoinFive(a: string, b: string, c: string, d: string, e: string)
    ensures a + (b + (c + (d + e))) == a + b + c + d + e
  {
  }

  lemma CompactInjective(u: string, v: string)
    requires IsUUID(u) && IsUUID(v) && Compact(u) == Compact(v)
    ensures u == v
  {
    var cu, cv := Compact(u), Compact(v);
    forall i: nat | i < 36 ensures u[i] == v[i] {
      if i < 8 {
        assert cu[i] == u[i] && cv[i] == v[i];
      } else if 9 <= i < 13 {
        assert cu[i - 1] == u[i] && cv[i - 1] == v[i];
      } else if 14 <= i < 18 {
        assert cu[i - 2] == u[i] && cv[i - 2] == v[i];
      } else if 19 <= i < 23 {
        assert cu[i - 3] == u[i] && cv[i - 3] == v[i];
      } else if 24 <= i {
        assert cu[i - 4] == u[i] && cv[i - 4] == v[i];
      } else {
        assert HyphenAt(i);
      }
    }
  }

  // ----- resctrl groups of structured mode

  const GROUP_PREFIX: string := "dra-c"

  /** The group of a claim in a cache domain. */
  function GroupName(cacheID: int, uid: string): string {
    GROUP_PREFIX + Decimal(cacheID) + "-" + SanitizeUID(uid)
  }

  lemma DecimalInjective(m: int, n: int)
    requires IsInt64(m) && IsInt64(n) && Decimal(m) == Decimal(n)
    ensures m == n
  {
    DecimalRoundTrip(m);
    DecimalRoundTrip(n);
  }

  lemma SameTail(a: string, b: string, x: string, y: string)
    requires a + x == b + y && |x| == |y|
    ensures a == b && x == y
  {
    assert (a + x)[..|a|] == a && (b + y)[..|b|] == b;
    assert (a + x)[|a|..] == x && (b + y)[|b|..] == y;
  }

  lemma SameHead(a: string, b: string, x: string, y: string)
    requires a + x == b + y && |a| == |b|
    ensures a == b && x == y
  {
    SameTail(a, b, x, y);
  }

  /** Distinct claims, or distinct domains of one claim, have distinct groups. */
  lemma GroupNamesDiffer(c1: int, u1: string, c2: int, u2: string)
    requires IsInt64(c1) && IsInt64(c2) && IsUUID(u1) && IsUUID(u2)
    requires GroupName(c1, u1) == GroupName(c2, u2)
    ensures c1 == c2 && u1 == u2
  {
    SanitizeIsCompact(u1);
    SanitizeIsCompact(u2);
    SameTail(GROUP_PREFIX + Decimal(c1) + "-", GROUP_PREFIX + Decimal(c2) + "-", SanitizeUID(u1), SanitizeUID(u2));
    CompactInjective(u1, u2);
    SameTail(GROUP_PREFIX + Decimal(c1), GROUP_PREFIX + Decimal(c2), "-", "-");
    SameHead(GROUP_PREFIX, GROUP_PREFIX, Decimal(c1), Decimal(c2));
    DecimalInjective(c1, c2);
  }

  lemma GroupNameHasPrefix(cacheID: int, uid: string)
    ensures GROUP_PREFIX <= GroupName(cacheID, uid)
  {
  }

  // ----- inventory mode

  function PartitionID(cacheID: int, index: int): string {
    "cache" + Decimal(cacheID) + "-part" + Decimal(index)
  }

  function PartitionGroup(cacheID: int, index: int): string {
    "dra-cache" + Decimal(cacheID) + "-part" + Decimal(index)
  }

  /** Partition IDs and group names determine the domain and the index. */
  lemma PartitionNamesDiffer(c1: int, p1: int, c2: int, p2: int)
    requires IsInt64(c1) && IsInt64(c2) && IsInt64(p1) && IsInt64(p2)
    ensures PartitionID(c1, p1) == PartitionID(c2, p2) ==> c1 == c2 && p1 == p2
    ensures PartitionGroup(c1, p1) == PartitionGroup(c2, p2) ==> c1 == c2 && p1 == p2
  {
    if PartitionID(c1, p1) == PartitionID(c2, p2) {
      PartitionTextDiffers("cache", c1, p1, c2, p2);
    }
    if PartitionGroup(c1, p1) == PartitionGroup(c2, p2) {
      PartitionTextDiffers("dra-cache", c1, p1, c2, p2);
    }
  }

  /** Groups of inventory mode also carry the prefix by which structured mode finds its
      groups after a restart. */
  lemma PartitionGroupHasPrefix(cacheID: int, index: int)
    ensures GROUP_PREFIX <= PartitionGroup(cacheID, index)
  {
    PrefixedWith("dra-cache", Decimal(cacheID) + "-part" + Decimal(index));
    Regroup("dra-cache", Decimal(cacheID), "-part", Decimal(index));
  }

  lemma PrefixedWith(a: string, b: string)
    ensures a <= a + b
  {
  }

  /** A group of structured mode never has the name of a partition's group. */
  lemma GroupIsNotPartitionGroup(cacheID: int, uid: string, domain: int, index: int)
    ensures GroupName(cacheID, uid) != PartitionGroup(domain, index)
  {
    DecimalStart(cacheID);
    SixthChar(Decimal(cacheID), "-" + SanitizeUID(uid));
    SixthOfPartition(Decimal(domain), "-part" + Decimal(index));
    JoinTail(GROUP_PREFIX, Decimal(cacheID), "-", SanitizeUID(uid));
    JoinTail("dra-cache", Decimal(domain), "-part", Decimal(index));
  }

  lemma JoinTail(a: string, b: string, c: string, d: string)
    ensures a + b + c + d == a + b + (c + d)
  {
  }

  lemma SixthChar(d: string, rest: string)
    requires d != ""
    ensures |GROUP_PREFIX + d + rest| > 5 && (GROUP_PREFIX + d + rest)[5] == d[0]
  {
  }

  lemma SixthOfPartition(d: string, rest: string)
    ensures |"dra-cache" + d + rest| > 5 && ("dra-cache" + d + rest)[5] == 'a'
  {
  }

  /** Text around the first `mark` determines what stands on its sides. */
  lemma SameAround(a1: string, b1: string, a2: string, b2: string, mark: char)
    requires mark !in a1 && mark !in a2 && a1 + [mark] + b1 == a2 + [mark] + b2
    ensures a1 == a2 && b1 == b2
  {
    IndexOfFirst(a1, mark, b1);
    IndexOfFirst(a2, mark, b2);
    SameHead(a1 + [mark], a2 + [mark], b1, b2);
    SameTail(a1, a2, [mark], [mark]);
  }

  lemma AroundPart(prefix: string, a: string, b: string)
    ensures prefix + a + "-part" + b == (prefix + a + "-") + ['p'] + ("art" + b)
  {
  }

  lemma PartitionTextDiffers(prefix: string, c1: int, p1: int, c2: int, p2: int)
    requires IsInt64(c1) && IsInt64(c2) && IsInt64(p1) && IsInt64(p2) && 'p' !in prefix
    requires prefix + Decimal(c1) + "-part" + Decimal(p1) == prefix + Decimal(c2) + "-part" + Decimal(p2)
    ensures c1 == c2 && p1 == p2
  {
    var d1, d2, e1, e2 := Decimal(c1), Decimal(c2), Decimal(p1), Decimal(p2);
    DecimalLacks(c1, 'p');
    DecimalLacks(c2, 'p');
    SamePartitionText(prefix, d1, e1, d2, e2);
    DecimalInjective(c1, c2);
    DecimalInjective(p1, p2);
  }

  lemma SamePartitionText(prefix: string, d1: string, e1: string, d2: string, e2: string)
    requires 'p' !in prefix && 'p' !in d1 && 'p' !in d2
    requires prefix + d1 + "-part" + e1 == prefix + d2 + "-part" + e2
    ensures d1 == d2 && e1 == e2
  {
    AroundPart(prefix, d1, e1);
    AroundPart(prefix, d2, e2);
    SameAround(prefix + d1 + "-", "art" + e1, prefix + d2 + "-", "art" + e2, 'p');
    SameHead("art", "art", e1, e2);
    SameTail(prefix + d1, prefix + d2, "-", "-");
    SameHead(prefix, prefix, d1, d2);
  }

  // ----- devices of structured mode

  /** The published name of a cache-way device. */
  function DeviceName(cacheID: int, ways: int): string {
    "cache" + Decimal(cacheID) + "-" + Decimal(ways) + "way"
  }

  /** `strings.HasSuffix`. */
  predicate EndsWith(s: string, suffix: string) {
    |suffix| <= |s| && s[|s| - |suffix|..] == suffix
  }

  function TrimSuffix(s: string, suffix: string): string {
    if EndsWith(s, suffix) then s[..|s| - |suffix|] else s
  }

  /** `parseCacheWayDeviceName`: the domain and the number of ways. */
  function ParseDeviceName(name: string): Option<(int, int)> {
    if !("cache" <= name) || !EndsWith(name, "way") then None
    else ParseDeviceNumbers(TrimSuffix(name[5..], "way"))
  }

  /** The part of a device name between `cache` and `way`. */
  function ParseDeviceNumbers(inner: string): Option<(int, int)> {
    match IndexOf(inner, '-')
    case None => None
    case Some(i) =>
      match Atoi(inner[..i])
      case None => None
      case Some(cacheID) =>
        match Atoi(inner[i + 1..])
        case None => None
        case Some(ways) => Some((cacheID, ways))
  }

  lemma StripDeviceName(inner: string)
    ensures ParseDeviceName("cache" + inner + "way") == ParseDeviceNumbers(inner)
  {
    var name := "cache" + inner + "way";
    assert name[..5] == "cache";
    assert name[5..] == inner + "way";
    assert name[|name| - 3..] == "way";
    assert (inner + "way")[|inner|..] == "way";
    assert (inner + "way")[..|inner|] == inner;
  }

  lemma NumbersRoundTrip(c: string, w: string, cacheID: int, ways: int)
    requires '-' !in c && Atoi(c) == Some(cacheID) && Atoi(w) == Some(ways)
    ensures ParseDeviceNumbers(c + "-" + w) == Some((cacheID, ways))
  {
    var inner := c + "-" + w;
    IndexOfFirst(c, '-', w);
    assert inner[..|c|] == c;
    assert inner[|c| + 1..] == w;
  }

  lemma NegativeUnreadable(rest: string)
    ensures ParseDeviceNumbers("-" + rest) == None
  {
    var inner := "-" + rest;
    assert inner[0] == '-';
    assert inner[..0] == "";
  }

  /** A published name is parsed back to the device exactly when the domain is not
      negative; a negative domain makes the name unreadable. */
  lemma DeviceNameRoundTripIff(cacheID: int, ways: int)
    requires IsInt64(cacheID) && IsInt64(ways)
    ensures ParseDeviceName(DeviceName(cacheID, ways)) == Some((cacheID, ways)) <==> 0 <= cacheID
    ensures cacheID < 0 ==> ParseDeviceName(DeviceName(cacheID, ways)) == None
  {
    if 0 <= cacheID {
      NonNegativeReadable(cacheID, ways);
    } else {
      DeviceNameInner("-" + Digits(-cacheID, 10), Decimal(ways));
      NegativeUnreadable(Digits(-cacheID, 10) + "-" + Decimal(ways));
      Regroup("-", Digits(-cacheID, 10), "-", Decimal(ways));
    }
  }

  lemma Regroup(a: string, b: string, c: string, d: string)
    ensures a + b + c + d == a + (b + c + d)
  {
  }

  lemma DeviceNameInner(c: string, w: string)
    ensures ParseDeviceName("cache" + c + "-" + w + "way") == ParseDeviceNumbers(c + "-" + w)
  {
    StripDeviceName(c + "-" + w);
    Regroup("cache", c, "-", w);
  }

  lemma NonNegativeReadable(cacheID: int, ways: int)
    requires IsInt64(cacheID) && IsInt64(ways) && 0 <= cacheID
    ensures ParseDeviceName(DeviceName(cacheID, ways)) == Some((cacheID, ways))
  {
    DeviceNameInner(Decimal(cacheID), Decimal(ways));
    DecimalChars(cacheID);
    DecimalRoundTrip(cacheID);
    DecimalRoundTrip(ways);
    NumbersRoundTrip(Decimal(cacheID), Decimal(ways), cacheID, ways);
  }

  lemma NotAWayDevice(name: string)
    requires name != "" && IsDigit(name[|name| - 1])
    ensures ParseDeviceName(name) == None
  {
    assert "way"[2] == 'y';
    assert |name| >= 3 ==> name[|name| - 3..][2] == name[|name| - 1];
  }

  /** Inventory, MBA and SMBA device names are never taken for cache-way devices. */
  lemma OtherDevicesRejected(prefix: string, cacheID: int, index: int)
    ensures ParseDeviceName(PartitionID(cacheID, index)) == None
    ensures ParseDeviceName(prefix + Decimal(cacheID) + "-part" + Decimal(index)) == None
  {
    DecimalChars(index);
    var last := Decimal(index)[|Decimal(index)| - 1];
    assert IsDigit(last) by { DigitsAreDigits(if index < 0 then -index else index, 10); }
    NotAWayDevice(PartitionID(cacheID, index));
    NotAWayDevice(prefix + Decimal(cacheID) + "-part" + Decimal(index));
  }
}
