/**
 Admission receipts and their expiry keys. The storage lists keys in text order; padding
 the expiry to sixteen digits makes that the order of time, which is what lets the pruning
 loop stop at the first entry that has not expired.
 */
module RelayReceipts {
  import opened KaziQueryRelay

  const LIST_LIMIT: nat := 100
  const KEY_DIGITS: nat := 16
  const KEY_PREFIX := "expiry:"

  function Zeros(n: nat): string {
    seq(n, _ => '0')
  }

  function PadStart(s: string, width: nat): string {
    if |s| >= width then s else Zeros(width - |s|) + s
  }

  function KeyText(key: ExpiryKey): string
    requires 0 <= key.expires
  {
    KEY_PREFIX + PadStart(Decimal(key.expires), KEY_DIGITS) + KeyTail(key)
  }

  function KeyTail(key: ExpiryKey): string {
    ":receipt:" + key.receiptKey
  }

  /** Text order of storage keys. */
  predicate Before(a: string, b: string) {
    b != [] && (a == [] || a[0] < b[0] || (a[0] == b[0] && Before(a[1..], b[1..])))
  }

  function Power10(w: nat): nat {
    if w == 0 then 1 else 10 * Power10(w - 1)
  }

  function Digits(n: nat, width: nat): (s: string)
    ensures |s| == width
  {
    if width == 0 then [] else Digits(n / 10, width - 1) + [DIGITS[n % 10]]
  }

  lemma {:induction false} BeforeAppend(a: string, b: string, s: string, t: string)
    requires |a| == |b|
    ensures Before(a + s, b + t) <==> Before(a, b) || (a == b && Before(s, t))
  {
    if a == [] {
      assert a + s == s && b + t == t;
    } else {
      assert (a + s)[1..] == a[1..] + s && (b + t)[1..] == b[1..] + t;
      assert a == [a[0]] + a[1..] && b == [b[0]] + b[1..];
      BeforeAppend(a[1..], b[1..], s, t);
    }
  }

  lemma DigitOrder(x: nat, y: nat)
    requires x < 10 && y < 10
    ensures Before([DIGITS[x]], [DIGITS[y]]) <==> x < y
    ensures DIGITS[x] == DIGITS[y] <==> x == y
  {
    assert [DIGITS[x]][1..] == [] && [DIGITS[y]][1..] == [];
  }

  /** Digit strings of one width compare as the numbers they spell. */
  lemma {:induction false} DigitsOrder(a: nat, b: nat, width: nat)
    requires a < Power10(width) && b < Power10(width)
    ensures Before(Digits(a, width), Digits(b, width)) <==> a < b
    ensures Digits(a, width) == Digits(b, width) <==> a == b
  {
    if width > 0 {
      var (p, q) := (Digits(a / 10, width - 1), Digits(b / 10, width - 1));
      var (x, y) := ([DIGITS[a % 10]], [DIGITS[b % 10]]);
      DigitsOrder(a / 10, b / 10, width - 1);
      DigitOrder(a % 10, b % 10);
      BeforeAppend(p, q, x, y);
      assert (p + x)[..width - 1] == p && (q + y)[..width - 1] == q;
      assert (p + x)[width - 1] == x[0] && (q + y)[width - 1] == y[0];
    }
  }

  lemma {:induction false} PaddedDecimal(n: nat, width: nat)
    requires n < Power10(width) && width > 0
    ensures |Decimal(n)| <= width && PadStart(Decimal(n), width) == Digits(n, width)
  {
    if width == 1 {
      assert Power10(1) == 10;
      assert Digits(n, 1) == Digits(n / 10, 0) + [DIGITS[n % 10]];
    } else {
      PaddedDecimal(n / 10, width - 1);
      PadLonger(n, width);
    }
  }

  lemma PadLonger(n: nat, width: nat)
    requires width > 1 && |Decimal(n / 10)| <= width - 1
    ensures |Decimal(n)| <= width
    ensures PadStart(Decimal(n), width) == PadStart(Decimal(n / 10), width - 1) + [DIGITS[n % 10]]
  {
    if n < 10 {
      assert Zeros(width - 1) == Zeros(width - 2) + ['0'];
      assert Decimal(n / 10) == ['0'];
    }
  }

  predicate KeyInRange(key: ExpiryKey) {
    0 <= key.expires < Power10(KEY_DIGITS)
  }

  lemma PrefixedOrder(prefix: string, p: string, q: string, s: string, t: string)
    requires |p| == |q|
    ensures Before(prefix + p + s, prefix + q + t) <==> Before(p, q) || (p == q && Before(s, t))
  {
    NotBeforeItself(prefix);
    BeforeAppend(prefix, prefix, p + s, q + t);
    BeforeAppend(p, q, s, t);
    assert prefix + p + s == prefix + (p + s) && prefix + q + t == prefix + (q + t);
  }

  /** Key order is time order. */
  lemma KeyOrderIsTimeOrder(a: ExpiryKey, b: ExpiryKey)
    requires KeyInRange(a) && KeyInRange(b)
    ensures Before(KeyText(a), KeyText(b)) ==> a.expires <= b.expires
    ensures a.expires < b.expires ==> Before(KeyText(a), KeyText(b))
  {
    PaddedDecimal(a.expires, KEY_DIGITS);
    PaddedDecimal(b.expires, KEY_DIGITS);
    DigitsOrder(a.expires, b.expires, KEY_DIGITS);
    PrefixedOrder(KEY_PREFIX, Digits(a.expires, KEY_DIGITS), Digits(b.expires, KEY_DIGITS), KeyTail(a), KeyTail(b));
  }

  lemma {:induction false} NotBeforeItself(a: string)
    ensures !Before(a, a)
  {
    if a != [] {
      NotBeforeItself(a[1..]);
    }
  }

  /** What `list({ prefix: "expiry:", limit })` returns: the first `limit` stored keys in key order. */
  ghost predicate IsListing(entries: seq<ExpiryKey>, keys: set<ExpiryKey>, limit: nat) {
    && (forall k :: k in keys ==> KeyInRange(k))
    && (forall i :: 0 <= i < |entries| ==> entries[i] in keys)
    && (forall i, j :: 0 <= i < j < |entries| ==> Before(KeyText(entries[i]), KeyText(entries[j])))
    && |entries| <= limit
    && (forall k :: k in keys && k !in entries ==>
          |entries| == limit && forall i :: 0 <= i < |entries| ==> Before(KeyText(entries[i]), KeyText(k)))
  }

  predicate TimeOrdered(entries: seq<ExpiryKey>) {
    forall i, j :: 0 <= i < j < |entries| ==> entries[i].expires <= entries[j].expires
  }

  function Expired(entries: seq<ExpiryKey>, now: int): set<ExpiryKey> {
    set key | key in entries && key.expires <= now
  }

  lemma {:induction false} PruneRemovesExpired(st: Storage, entries: seq<ExpiryKey>, now: int)
    requires TimeOrdered(entries)
    ensures Prune(st, entries, now).expiries == st.expiries - Expired(entries, now)
    ensures forall r :: r in Prune(st, entries, now).receipts <==>
      r in st.receipts && forall k :: k in Expired(entries, now) ==> k.receiptKey != r
    decreases |entries|
  {
    if entries != [] && entries[0].expires <= now {
      assert entries == [entries[0]] + entries[1..];
      PruneRemovesExpired(PruneOne(st, entries[0]), entries[1..], now);
      assert Expired(entries, now) == Expired(entries[1..], now) + {entries[0]};
    } else {
      assert Expired(entries, now) == {};
    }
  }

  /** One pruning pass removes exactly the earliest expired keys: no live key, and no expired one is
      skipped unless a full listing of keys that expire no later was removed. */
  lemma PruneExact(st: Storage, entries: seq<ExpiryKey>, now: int)
    requires IsListing(entries, st.expiries, LIST_LIMIT)
    ensures Prune(st, entries, now).expiries == st.expiries - Expired(entries, now)
    ensures forall k :: k in st.expiries && k.expires > now ==> k in Prune(st, entries, now).expiries
    ensures forall k :: k in Prune(st, entries, now).expiries && k.expires <= now ==>
      |entries| == LIST_LIMIT && Expired(entries, now) == (set e | e in entries)
      && forall e :: e in entries ==> e.expires <= k.expires
  {
    ListingTimeOrdered(entries, st.expiries, LIST_LIMIT);
    PruneRemovesExpired(st, entries, now);
    forall k | k in st.expiries - Expired(entries, now) && k.expires <= now
      ensures |entries| == LIST_LIMIT && forall e :: e in entries ==> e.expires <= k.expires
    {
      forall e | e in entries ensures e.expires <= k.expires {
        var i :| 0 <= i < |entries| && entries[i] == e;
        KeyOrderIsTimeOrder(entries[i], k);
      }
    }
  }

  lemma ListingTimeOrdered(entries: seq<ExpiryKey>, keys: set<ExpiryKey>, limit: nat)
    requires IsListing(entries, keys, limit)
    ensures TimeOrdered(entries)
  {
    forall i, j | 0 <= i < j < |entries| ensures entries[i].expires <= entries[j].expires {
      KeyOrderIsTimeOrder(entries[i], entries[j]);
    }
  }

  // ------------------------------------------------------------ receipts and keys pair up

  /** Every receipt has its one expiry key and every expiry key its receipt. */
  ghost predicate Paired(st: Storage) {
    && (forall r :: r in st.receipts ==> ExpiryKey(st.receipts[r].expires, r) in st.expiries)
    && (forall k :: k in st.expiries ==> k.receiptKey in st.receipts && st.receipts[k.receiptKey].expires == k.expires)
  }

  lemma AdmitKeepsPaired(st: Storage, env: Environment, request: AdmitRequest, id: string, checkedAt: int, now: int)
    requires Paired(st)
    ensures Paired(Admit(st, env, request, id, checkedAt, now))
  {
    hide AdmitStatus, NextItem;
  }

  /** Deleting one listed entry keeps receipts and keys paired exactly when the key is still stored
      or its receipt is already gone: a listing that went stale can take a newer receipt with it. */
  lemma PruneOneKeepsPaired(st: Storage, key: ExpiryKey)
    requires Paired(st)
    ensures Paired(PruneOne(st, key)) <==> key in st.expiries || key.receiptKey !in st.receipts
  {
    var after := PruneOne(st, key);
    if key !in st.expiries && key.receiptKey in st.receipts {
      var orphan := ExpiryKey(st.receipts[key.receiptKey].expires, key.receiptKey);
      assert orphan in after.expiries && orphan.receiptKey !in after.receipts;
    }
  }
}
