/** The deduplication keys of managed reminders, as text: `work-item:<id>:<type>:<kind>:<microseconds>`,
    followed by `:v2`, `:v3`, ... where an earlier key of the same base is already taken. */
module DedupKeys {
  import opened Core

  /** The decimal digits of a number, most significant first. */
  function Decimal(n: nat): (text: string)
    ensures |text| > 0
    ensures forall i :: 0 <= i < |text| ==> '0' <= text[i] <= '9'
  {
    if n < 10 then [Digit(n)] else Decimal(n / 10) + [Digit(n % 10)]
  }

  function Digit(d: nat): (c: char)
    requires d < 10
    ensures '0' <= c <= '9'
  {
    '0' + d as char
  }

  function Signed(i: int): string {
    if i < 0 then "-" + Decimal(-i) else Decimal(i)
  }

  /** The number that a digit string denotes; the inverse that makes `Decimal` injective. */
  function Value(text: string): int
  {
    if |text| == 0 then 0 else 10 * Value(text[..|text| - 1]) + (text[|text| - 1] as int - '0' as int)
  }

  lemma {:induction false} ValueOfDecimal(n: nat)
    ensures Value(Decimal(n)) == n
  {
    var text := Decimal(n);
    if n < 10 {
      assert text == [Digit(n)];
      assert Value(text[..0]) == 0;
    } else {
      ValueOfDecimal(n / 10);
      assert text[..|text| - 1] == Decimal(n / 10);
    }
  }

  lemma SignedIsInjective(i: int, j: int)
    requires Signed(i) == Signed(j)
    ensures i == j
  {
    assert i < 0 <==> Signed(i)[0] == '-';
    assert j < 0 <==> Signed(j)[0] == '-';
    var m, n := if i < 0 then -i else i, if j < 0 then -j else j;
    if i < 0 {
      assert Decimal(m) == Signed(i)[1..] == Signed(j)[1..] == Decimal(n);
    }
    ValueOfDecimal(m);
    ValueOfDecimal(n);
  }

  predicate NoColon(text: string) {
    forall i :: 0 <= i < |text| ==> text[i] != ':'
  }

  function TypeText(t: ReminderType): (text: string)
    ensures NoColon(text)
  {
    match t
    case Deadline => "deadline"
    case FollowUp => "follow_up"
    case Waiting => "waiting"
    case MorningDigest => "morning_digest"
    case EveningDigest => "evening_digest"
    case Custom => "custom"
  }

  function KindText(k: ScheduleKind): (text: string)
    ensures NoColon(text)
  {
    match k
    case Manual => "manual"
    case Exact => "exact"
    case BeforeDeadline => "before_deadline"
    case Snooze => "snooze"
  }

  lemma TypeTextIsInjective(t: ReminderType, u: ReminderType)
    requires TypeText(t) == TypeText(u)
    ensures t == u
  {
    // The two digest names have the same length; the other lengths differ.
    assert "morning_digest"[0] == 'm' && "evening_digest"[0] == 'e';
    assert |"deadline"| == 8 && |"follow_up"| == 9 && |"waiting"| == 7 && |"custom"| == 6;
  }

  lemma KindTextIsInjective(k: ScheduleKind, l: ScheduleKind)
    requires KindText(k) == KindText(l)
    ensures k == l
  {
    assert "manual"[0] == 'm' && "snooze"[0] == 's' && |"exact"| == 5 && |"before_deadline"| == 15;
  }

  /** What a managed reminder is for. */
  datatype Purpose = Purpose(item: nat, rtype: ReminderType, kind: ScheduleKind, reference: Instant)

  function KeyBase(p: Purpose): string {
    "work-item" + ":" + (Decimal(p.item) + ":" + (TypeText(p.rtype) + ":" + (KindText(p.kind) + ":" + Signed(p.reference))))
  }

  function VersionedKey(base: string, version: nat): string {
    base + ":v" + Decimal(version)
  }

  predicate MatchesBase(key: string, base: string) {
    key == base || base + ":v" <= key
  }

  /** The text before the first colon is the same whichever way the key is read. */
  lemma FirstFieldAgrees(a: string, x: string, b: string, y: string)
    requires NoColon(a) && NoColon(b)
    requires a + ":" + x == b + ":" + y
    ensures a == b && x == y
  {
    var s, t := a + ":" + x, b + ":" + y;
    assert s[|a|] == ':' && t[|b|] == ':';
    assert forall i :: 0 <= i < |a| ==> s[i] == a[i];
    assert forall i :: 0 <= i < |b| ==> t[i] == b[i];
    assert |a| == |b|;
    assert a == s[..|a|] && b == t[..|b|];
    assert x == s[|a| + 1..] && y == t[|b| + 1..];
  }

  lemma SignedHasNoColon(i: int)
    ensures NoColon(Signed(i))
  {}

  /** A key that starts with a base ends there or goes on with a colon. */
  lemma KeyContinues(key: string, base: string) returns (rest: string)
    requires MatchesBase(key, base)
    ensures key + ":" == base + ":" + rest
  {
    if key == base {
      rest := "";
    } else {
      rest := key[|base| + 1..] + ":";
      assert key == base + ":v" + key[|base| + 2..];
    }
  }

  function Join(a: string, rest: string): string {
    a + ":" + rest
  }

  /** Five colon-separated fields determine each other's split. */
  lemma FieldsAgree(a: string, b: string, c: string, d: string, x: string,
                    a': string, b': string, c': string, d': string, x': string)
    requires NoColon(a) && NoColon(b) && NoColon(c) && NoColon(d)
    requires NoColon(a') && NoColon(b') && NoColon(c') && NoColon(d')
    requires Join(a, Join(b, Join(c, Join(d, x)))) == Join(a', Join(b', Join(c', Join(d', x'))))
    ensures a == a' && b == b' && c == c' && d == d'
  {
    FirstFieldAgrees(a, Join(b, Join(c, Join(d, x))), a', Join(b', Join(c', Join(d', x'))));
    FirstFieldAgrees(b, Join(c, Join(d, x)), b', Join(c', Join(d', x')));
    FirstFieldAgrees(c, Join(d, x), c', Join(d', x'));
    FirstFieldAgrees(d, x, d', x');
  }

  lemma KeyFields(key: string, p: Purpose) returns (rest: string)
    requires MatchesBase(key, KeyBase(p))
    ensures key + ":" == "work-item" + ":" +
              Join(Decimal(p.item), Join(TypeText(p.rtype), Join(KindText(p.kind), Join(Signed(p.reference), rest))))
  {
    rest := KeyContinues(key, KeyBase(p));
    JoinAssociates(Signed(p.reference), rest, KindText(p.kind), TypeText(p.rtype), Decimal(p.item));
  }

  lemma JoinAssociates(e: string, rest: string, d: string, c: string, b: string)
    ensures "work-item" + ":" + (b + ":" + (c + ":" + (d + ":" + e))) + ":" + rest
         == "work-item" + ":" + Join(b, Join(c, Join(d, Join(e, rest))))
  {
    assert (d + ":" + e) + ":" + rest == Join(d, Join(e, rest));
    assert (c + ":" + (d + ":" + e)) + ":" + rest == c + ":" + ((d + ":" + e) + ":" + rest);
    assert (b + ":" + (c + ":" + (d + ":" + e))) + ":" + rest == b + ":" + ((c + ":" + (d + ":" + e)) + ":" + rest);
  }

  /** No key is read as belonging to two purposes, versions included. */
  lemma KeyMatchesOnePurpose(key: string, p: Purpose, q: Purpose)
    requires MatchesBase(key, KeyBase(p)) && MatchesBase(key, KeyBase(q))
    ensures p == q
  {
    var x := KeyFields(key, p);
    var y := KeyFields(key, q);
    var tail := (key + ":")[|"work-item:"|..];
    SameFields(p, x, q, y, tail);
    ValueOfDecimal(p.item);
    ValueOfDecimal(q.item);
    TypeTextIsInjective(p.rtype, q.rtype);
    KindTextIsInjective(p.kind, q.kind);
    SignedIsInjective(p.reference, q.reference);
  }

  lemma SameFields(p: Purpose, x: string, q: Purpose, y: string, tail: string)
    requires tail == Join(Decimal(p.item), Join(TypeText(p.rtype), Join(KindText(p.kind), Join(Signed(p.reference), x))))
    requires tail == Join(Decimal(q.item), Join(TypeText(q.rtype), Join(KindText(q.kind), Join(Signed(q.reference), y))))
    ensures Decimal(p.item) == Decimal(q.item) && TypeText(p.rtype) == TypeText(q.rtype)
    ensures KindText(p.kind) == KindText(q.kind) && Signed(p.reference) == Signed(q.reference)
  {
    SignedHasNoColon(p.reference);
    SignedHasNoColon(q.reference);
    FieldsAgree(Decimal(p.item), TypeText(p.rtype), KindText(p.kind), Signed(p.reference), x,
                Decimal(q.item), TypeText(q.rtype), KindText(q.kind), Signed(q.reference), y);
  }

  lemma VersionsAreDistinct(base: string, v: nat, w: nat)
    requires VersionedKey(base, v) == VersionedKey(base, w)
    ensures v == w
  {
    assert VersionedKey(base, v)[|base| + 2..] == Decimal(v);
    assert VersionedKey(base, w)[|base| + 2..] == Decimal(w);
    ValueOfDecimal(v);
    ValueOfDecimal(w);
  }

  /** The first free version from `version` on. A taken key is dropped from the search space, which
      versions being distinct makes harmless and which bounds the search. */
  function FirstFreeVersion(base: string, keys: set<string>, version: nat): nat
    decreases keys
  {
    var key := VersionedKey(base, version);
    if key !in keys then version else FirstFreeVersion(base, keys - {key}, version + 1)
  }

  function NextKey(base: string, keys: set<string>): string {
    if base !in keys then base else VersionedKey(base, FirstFreeVersion(base, keys, 2))
  }

  lemma {:induction false} FirstFreeVersionIsFirst(base: string, keys: set<string>, version: nat)
    ensures var free := FirstFreeVersion(base, keys, version);
            && version <= free
            && VersionedKey(base, free) !in keys
            && forall v :: version <= v < free ==> VersionedKey(base, v) in keys
    decreases keys
  {
    var key := VersionedKey(base, version);
    if key in keys {
      FirstFreeVersionIsFirst(base, keys - {key}, version + 1);
      var free := FirstFreeVersion(base, keys - {key}, version + 1);
      if VersionedKey(base, free) == key {
        VersionsAreDistinct(base, free, version);
      }
    }
  }

  /** The chosen key is unused, belongs to its base, and is the lowest free one. */
  lemma NextKeyIsFree(base: string, keys: set<string>)
    ensures NextKey(base, keys) !in keys
    ensures MatchesBase(NextKey(base, keys), base)
    ensures NextKey(base, keys) != base ==>
              exists n: nat :: n >= 2 && NextKey(base, keys) == VersionedKey(base, n) &&
                base in keys && forall v :: 2 <= v < n ==> VersionedKey(base, v) in keys
  {
    FirstFreeVersionIsFirst(base, keys, 2);
    var n := FirstFreeVersion(base, keys, 2);
    assert base + ":v" <= VersionedKey(base, n);
  }

  /** The search loop itself: it ends because every round uses up one of the finitely many keys. */
  method NextVersionedKey(base: string, keys: set<string>) returns (key: string)
    ensures key == NextKey(base, keys)
  {
    if base !in keys {
      return base;
    }
    var version: nat := 2;
    ghost var unseen := keys;
    while VersionedKey(base, version) in keys
      invariant version >= 2
      invariant unseen <= keys
      invariant forall v: nat :: v >= version && VersionedKey(base, v) in keys ==> VersionedKey(base, v) in unseen
      invariant FirstFreeVersion(base, keys, 2) == FirstFreeVersion(base, unseen, version)
      decreases unseen
    {
      forall v: nat | v > version ensures VersionedKey(base, v) != VersionedKey(base, version) {
        if VersionedKey(base, v) == VersionedKey(base, version) {
          VersionsAreDistinct(base, v, version);
        }
      }
      unseen := unseen - {VersionedKey(base, version)};
      version := version + 1;
    }
    return VersionedKey(base, version);
  }
}
