/** The VNPay gateway adapter (utils/vnpayService.js): the parameter set of a payment request,
    its canonical string and signature, and the check of the signature on the callback. */
module VnpayService {
  import opened Common
  import opened LexOrder

  /** A parameter value; the request mixes strings and numbers. */
  datatype Value = Text(s: string) | Number(n: real)

  /** One own property of the parameter object. */
  datatype Param = Param(key: string, value: Value)

  /** A parameter object: its properties in insertion order. */
  type Params = seq<Param>

  /** Deployment settings, and the two library functions the adapter relies on, which the model
      leaves uninterpreted: `hmacSha512Hex(secret, data)` is the hex digest of HMAC-SHA512 (RFC 2104)
      and `encodeUriComponent` is `encodeURIComponent` applied to a value. */
  datatype Gateway = Gateway(
    url: string,
    tmnCode: string,
    hashSecret: string,
    returnUrl: string,
    hmacSha512Hex: (string, string) -> string,
    encodeUriComponent: Value -> string)

  const SecureHashKey: string := "vnp_SecureHash"

  /** A JavaScript object never has two properties with the same key. */
  predicate DistinctKeys(s: Params) {
    forall i, j :: 0 <= i < j < |s| ==> s[i].key != s[j].key
  }

  /** Ascending by key: no property has a key below that of a property before it. */
  predicate Sorted(s: Params) {
    forall i, j :: 0 <= i < j < |s| ==> !Less(s[j].key, s[i].key)
  }

  /** The value of property `key`, if there is one. */
  function Get(s: Params, key: string): Option<Value> {
    if s == [] then None
    else if s[0].key == key then Some(s[0].value)
    else Get(s[1..], key)
  }

  /** The object after `delete obj[key]`. */
  function Remove(s: Params, key: string): (r: Params)
    ensures forall p :: p in r <==> p in s && p.key != key
    ensures DistinctKeys(s) ==> DistinctKeys(r)
  {
    if s == [] then []
    else if s[0].key == key then Remove(s[1..], key)
    else [s[0]] + Remove(s[1..], key)
  }

  // ---------------------------------------------------------------- sorting the keys

  /** No property of `s` has key `k`. */
  predicate KeyAbsent(s: Params, k: string) {
    forall x | x in s :: x.key != k
  }

  lemma DistinctCons(h: Param, t: Params)
    ensures DistinctKeys([h] + t) <==> DistinctKeys(t) && KeyAbsent(t, h.key)
  {
    if DistinctKeys([h] + t) {
      forall i, j | 0 <= i < j < |t| ensures t[i].key != t[j].key {
        assert ([h] + t)[i + 1] == t[i] && ([h] + t)[j + 1] == t[j];
      }
      forall x | x in t ensures x.key != h.key {
        var k :| 0 <= k < |t| && t[k] == x;
        assert ([h] + t)[0] == h && ([h] + t)[k + 1] == x;
      }
    }
  }

  lemma ConsSorted(h: Param, t: Params)
    requires Sorted(t)
    requires forall x | x in t :: !Less(x.key, h.key)
    ensures Sorted([h] + t)
  {
    forall i, j | 0 <= i < j < |[h] + t|
      ensures !Less(([h] + t)[j].key, ([h] + t)[i].key)
    {
      if i == 0 {
        assert ([h] + t)[j] == t[j - 1];
      }
    }
  }

  /** Inserts `e` before the first property whose key is not below its own. */
  function Insert(e: Param, s: Params): (r: Params)
    ensures multiset(r) == multiset(s) + multiset{e}
  {
    if s == [] then [e]
    else if !Less(s[0].key, e.key) then [e] + s
    else
      assert s == [s[0]] + s[1..];
      [s[0]] + Insert(e, s[1..])
  }

  /** A key that is not above the first key of a sorted object is not above any of its keys. */
  lemma BelowAll(e: Param, s: Params)
    requires Sorted(s) && s != []
    requires !Less(s[0].key, e.key)
    ensures forall x | x in s :: !Less(x.key, e.key)
  {
    forall x | x in s ensures !Less(x.key, e.key) {
      var k :| 0 <= k < |s| && s[k] == x;
      if k > 0 && s[0].key != e.key && Less(x.key, e.key) {
        Total(e.key, s[0].key);
        Transitive(x.key, e.key, s[0].key);
        assert false;
      }
    }
  }

  /** Insertion into a sorted object keeps it sorted. */
  lemma {:induction false} InsertSorted(e: Param, s: Params)
    requires Sorted(s)
    ensures Sorted(Insert(e, s))
    decreases |s|
  {
    if s == [] {
    } else if !Less(s[0].key, e.key) {
      BelowAll(e, s);
      ConsSorted(e, s);
    } else {
      var t := Insert(e, s[1..]);
      DropHead(s);
      InsertSorted(e, s[1..]);
      assert forall x | x in t :: !Less(x.key, s[0].key) by {
        forall x | x in t ensures !Less(x.key, s[0].key) {
          assert x in multiset(t);
          if x == e {
            Asymmetric(s[0].key, e.key);
          }
        }
      }
      ConsSorted(s[0], t);
    }
  }

  /** Inserting a property whose key is new keeps the keys distinct. */
  lemma {:induction false} InsertDistinct(e: Param, s: Params)
    requires DistinctKeys(s) && KeyAbsent(s, e.key)
    ensures DistinctKeys(Insert(e, s))
    decreases |s|
  {
    if s == [] {
    } else if !Less(s[0].key, e.key) {
      DistinctCons(e, s);
    } else {
      var t := Insert(e, s[1..]);
      assert s == [s[0]] + s[1..];
      DistinctCons(s[0], s[1..]);
      InsertDistinct(e, s[1..]);
      assert forall x | x in t :: x.key != s[0].key by {
        forall x | x in t ensures x.key != s[0].key {
          assert x in multiset(t);
        }
      }
      DistinctCons(s[0], t);
    }
  }

  /** `Object.keys(params).sort()`, each key carrying its value: an insertion sort. */
  function SortByKey(s: Params): (r: Params)
    ensures multiset(r) == multiset(s)
  {
    if s == [] then []
    else
      assert s == [s[0]] + s[1..];
      Insert(s[0], SortByKey(s[1..]))
  }

  /** The sort orders the properties by key. */
  lemma {:induction false} SortByKeySorted(s: Params)
    ensures Sorted(SortByKey(s))
    decreases |s|
  {
    if s != [] {
      SortByKeySorted(s[1..]);
      InsertSorted(s[0], SortByKey(s[1..]));
    }
  }

  /** Sorting keeps the keys distinct. */
  lemma {:induction false} SortByKeyDistinct(s: Params)
    requires DistinctKeys(s)
    ensures DistinctKeys(SortByKey(s))
    decreases |s|
  {
    if s != [] {
      var t := SortByKey(s[1..]);
      assert s == [s[0]] + s[1..];
      DistinctCons(s[0], s[1..]);
      SortByKeyDistinct(s[1..]);
      assert forall x | x in t :: x.key != s[0].key by {
        forall x | x in t ensures x.key != s[0].key {
          assert x in multiset(s[1..]);
        }
      }
      InsertDistinct(s[0], t);
    }
  }

  /** Two sorted arrangements of the same properties with distinct keys start alike. */
  lemma SortedHeads(a: Params, b: Params)
    requires Sorted(a) && Sorted(b)
    requires DistinctKeys(a)
    requires multiset(a) == multiset(b)
    requires a != []
    ensures b != [] && a[0] == b[0]
  {
    assert a[0] in multiset(b);
    assert b[0] in multiset(a);
    var j :| 0 <= j < |b| && b[j] == a[0];
    var i :| 0 <= i < |a| && a[i] == b[0];
    if a[0] != b[0] {
      assert !Less(b[0].key, a[0].key);
      assert !Less(a[0].key, b[0].key);
      if a[0].key != b[0].key {
        Total(a[0].key, b[0].key);
      }
      assert false;
    }
  }

  lemma DropHead(a: Params)
    requires a != []
    ensures multiset(a[1..]) == multiset(a) - multiset{a[0]}
    ensures Sorted(a) ==> Sorted(a[1..])
    ensures DistinctKeys(a) ==> DistinctKeys(a[1..])
  {
    assert a == [a[0]] + a[1..];
  }

  /** With distinct keys there is only one sorted arrangement of a collection of properties. */
  lemma {:induction false} SortedUnique(a: Params, b: Params)
    requires Sorted(a) && Sorted(b)
    requires DistinctKeys(a)
    requires multiset(a) == multiset(b)
    ensures a == b
    decreases |a|
  {
    if a == [] {
      assert |b| == |multiset(b)| == 0;
    } else {
      SortedHeads(a, b);
      DropHead(a);
      DropHead(b);
      SortedUnique(a[1..], b[1..]);
    }
  }

  // ---------------------------------------------------------------- the canonical string

  /** `key=encodeURIComponent(value)` for one property. */
  function PairText(enc: Value -> string, p: Param): string {
    p.key + "=" + enc(p.value)
  }

  /** The pairs of `s` joined by `&`. */
  function Joined(enc: Value -> string, s: Params): string {
    if |s| == 0 then ""
    else if |s| == 1 then PairText(enc, s[0])
    else PairText(enc, s[0]) + "&" + Joined(enc, s[1..])
  }

  /** The string the loop builds: every pair followed by `&`. */
  function Terminated(enc: Value -> string, s: Params): string {
    if s == [] then ""
    else Terminated(enc, s[..|s| - 1]) + PairText(enc, s[|s| - 1]) + "&"
  }

  lemma {:induction false} JoinedSnoc(enc: Value -> string, s: Params, e: Param)
    requires s != []
    ensures Joined(enc, s + [e]) == Joined(enc, s) + "&" + PairText(enc, e)
    decreases |s|
  {
    if |s| > 1 {
      assert (s + [e])[1..] == s[1..] + [e];
      JoinedSnoc(enc, s[1..], e);
    }
  }

  /** Dropping the loop's last `&` leaves exactly the pairs joined by `&`. */
  lemma {:induction false} TerminatedIsJoined(enc: Value -> string, s: Params)
    requires s != []
    ensures Terminated(enc, s) == Joined(enc, s) + "&"
    decreases |s|
  {
    var init := s[..|s| - 1];
    if init != [] {
      TerminatedIsJoined(enc, init);
      JoinedSnoc(enc, init, s[|s| - 1]);
      assert init + [s[|s| - 1]] == s;
    }
  }

  /** The `for...in` loop over the sorted keys and the `slice(0, -1)` that follows it. */
  method BuildQueryString(enc: Value -> string, sorted: Params) returns (query: string)
    ensures query == Joined(enc, sorted)
  {
    query := "";
    for i := 0 to |sorted|
      invariant query == Terminated(enc, sorted[..i])
    {
      assert sorted[..i + 1][..i] == sorted[..i];
      query := query + sorted[i].key + "=" + enc(sorted[i].value) + "&";
    }
    assert sorted[..|sorted|] == sorted;
    if sorted != [] {
      TerminatedIsJoined(enc, sorted);
    }
    if |query| > 0 {
      query := query[..|query| - 1];
    }
  }

  /** Where the pair of `s[i]` starts in `Joined(enc, s)`. */
  function PairOffset(enc: Value -> string, s: Params, i: nat): nat
    requires i < |s|
  {
    if i == 0 then 0 else |PairText(enc, s[0])| + 1 + PairOffset(enc, s[1..], i - 1)
  }

  /** Every property contributes its pair, even one whose value is empty. */
  lemma {:induction false} PairOccurs(enc: Value -> string, s: Params, i: nat)
    requires i < |s|
    ensures PairOffset(enc, s, i) + |PairText(enc, s[i])| <= |Joined(enc, s)|
    ensures Joined(enc, s)[PairOffset(enc, s, i)..PairOffset(enc, s, i) + |PairText(enc, s[i])|]
         == PairText(enc, s[i])
    decreases i
  {
    if i == 0 {
      PairOccursFirst(enc, s);
    } else {
      PairOccurs(enc, s[1..], i - 1);
      PairOccursShifted(enc, s, i);
    }
  }

  /** The first pair opens the joined string. */
  lemma PairOccursFirst(enc: Value -> string, s: Params)
    requires s != []
    ensures |PairText(enc, s[0])| <= |Joined(enc, s)|
    ensures Joined(enc, s)[0..|PairText(enc, s[0])|] == PairText(enc, s[0])
  {
    if |s| > 1 {
      var p := PairText(enc, s[0]);
      JoinedCons(enc, s);
      SliceBefore(p, "&" + Joined(enc, s[1..]));
    }
  }

  /** A pair found in the tail is found, shifted past the first pair and its `&`, in the whole. */
  lemma PairOccursShifted(enc: Value -> string, s: Params, i: nat)
    requires 0 < i < |s|
    requires PairOffset(enc, s[1..], i - 1) + |PairText(enc, s[i])| <= |Joined(enc, s[1..])|
    requires Joined(enc, s[1..])[PairOffset(enc, s[1..], i - 1)..PairOffset(enc, s[1..], i - 1) + |PairText(enc, s[i])|]
          == PairText(enc, s[i])
    ensures PairOffset(enc, s, i) + |PairText(enc, s[i])| <= |Joined(enc, s)|
    ensures Joined(enc, s)[PairOffset(enc, s, i)..PairOffset(enc, s, i) + |PairText(enc, s[i])|]
         == PairText(enc, s[i])
  {
    var p := PairText(enc, s[0]);
    var t := PairText(enc, s[i]);
    var rest := Joined(enc, s[1..]);
    var off := PairOffset(enc, s[1..], i - 1);
    JoinedCons(enc, s);
    SliceAfter(p + "&", rest, off, t);
    assert PairOffset(enc, s, i) == |p + "&"| + off;
  }

  lemma JoinedCons(enc: Value -> string, s: Params)
    requires |s| > 1
    ensures Joined(enc, s) == (PairText(enc, s[0]) + "&") + Joined(enc, s[1..])
  {
  }

  lemma SliceBefore(a: string, b: string)
    ensures (a + b)[0..|a|] == a
  {
  }

  lemma SliceAfter(a: string, b: string, lo: nat, t: string)
    requires lo + |t| <= |b| && b[lo..lo + |t|] == t
    ensures |a| + lo + |t| <= |a + b| && (a + b)[|a| + lo..|a| + lo + |t|] == t
  {
    assert (a + b)[|a| + lo..|a| + lo + |t|] == b[lo..lo + |t|];
  }

  /** The canonical string: the properties in ascending key order, as `key=value` pairs joined by `&`. */
  function Canonical(g: Gateway, p: Params): string
  {
    Joined(g.encodeUriComponent, SortByKey(p))
  }

  /** The signature: HMAC-SHA512 under the hash secret of the merchant code followed by the
      canonical string, hex-encoded. */
  function Signature(g: Gateway, p: Params): string
  {
    g.hmacSha512Hex(g.hashSecret, g.tmnCode + Canonical(g, p))
  }

  /** `generateVnpayHash`. */
  method GenerateHash(g: Gateway, params: Params) returns (hash: string)
    ensures hash == g.hmacSha512Hex(g.hashSecret, g.tmnCode + Joined(g.encodeUriComponent, SortByKey(params)))
    ensures hash == Signature(g, params)
  {
    var sorted := SortByKey(params);
    var query := BuildQueryString(g.encodeUriComponent, sorted);
    hash := g.hmacSha512Hex(g.hashSecret, g.tmnCode + query);
  }

  /** The signature does not depend on the order in which the properties were supplied. */
  lemma {:induction false} SignatureOrderIndependent(g: Gateway, p1: Params, p2: Params)
    requires DistinctKeys(p1) && DistinctKeys(p2)
    requires multiset(p1) == multiset(p2)
    ensures SortByKey(p1) == SortByKey(p2)
    ensures Signature(g, p1) == Signature(g, p2)
  {
    SortByKeyDistinct(p1);
    SortByKeySorted(p1);
    SortByKeySorted(p2);
    SortedUnique(SortByKey(p1), SortByKey(p2));
  }

  // ---------------------------------------------------------------- the payment request

  /** The parameter object of `createVnpayPaymentRequest` before it is signed. */
  function RequestParams(g: Gateway, orderId: string, orderTotal: real, discount: real, createDate: string): Params {
    [ Param("vnp_Version", Text("2.1.0")),
      Param("vnp_TmnCode", Text(g.tmnCode)),
      Param("vnp_Amount", Number((orderTotal - discount) * 100.0)),
      Param("vnp_Command", Text("pay")),
      Param("vnp_CreateDate", Text(createDate)),
      Param("vnp_Currency", Text("VND")),
      Param("vnp_OrderInfo", Text("Thanh toán cho đơn hàng " + orderId)),
      Param("vnp_OrderType", Text("billpayment")),
      Param("vnp_Locale", Text("vn")),
      Param("vnp_ReturnUrl", Text(g.returnUrl)),
      Param("vnp_TxnRef", Text(orderId)),
      Param("vnp_BankCode", Text("")) ]
  }

  /** `params` with `vnp_SecureHash` set to the signature of `params`. */
  function Signed(g: Gateway, p: Params): Params
  {
    p + [Param(SecureHashKey, Text(Signature(g, p)))]
  }

  /** The outcome of `verifyPaymentReturn` on a parameter object. */
  function VerifyResult(g: Gateway, q: Params): bool
  {
    Get(q, SecureHashKey) == Some(Text(Signature(g, Remove(q, SecureHashKey))))
  }

  lemma {:induction false} GetAppended(s: Params, key: string, v: Value)
    requires Get(s, key) == None
    ensures Get(s + [Param(key, v)], key) == Some(v)
    decreases |s|
  {
    if s != [] {
      assert (s + [Param(key, v)])[1..] == s[1..] + [Param(key, v)];
      GetAppended(s[1..], key, v);
    }
  }

  lemma {:induction false} GetNone(s: Params, key: string)
    requires Get(s, key) == None
    ensures forall p | p in s :: p.key != key
    decreases |s|
  {
    if s != [] {
      GetNone(s[1..], key);
    }
  }

  lemma {:induction false} RemoveAppended(s: Params, key: string, v: Value)
    requires Get(s, key) == None
    ensures Remove(s + [Param(key, v)], key) == s
    decreases |s|
  {
    if s != [] {
      assert (s + [Param(key, v)])[1..] == s[1..] + [Param(key, v)];
      RemoveAppended(s[1..], key, v);
    }
  }

  /** Deleting one key leaves the value of every other key as it was. */
  lemma {:induction false} RemoveKeepsOthers(s: Params, key: string, other: string)
    requires other != key
    ensures Get(Remove(s, key), other) == Get(s, other)
    decreases |s|
  {
    if s != [] {
      RemoveKeepsOthers(s[1..], key, other);
    }
  }

  /** Round trip: an object signed by the adapter passes verification. */
  lemma SignedVerifies(g: Gateway, p: Params)
    requires Get(p, SecureHashKey) == None
    ensures Remove(Signed(g, p), SecureHashKey) == p
    ensures VerifyResult(g, Signed(g, p))
  {
    GetAppended(p, SecureHashKey, Text(Signature(g, p)));
    RemoveAppended(p, SecureHashKey, Text(Signature(g, p)));
  }

  /** A hash other than the signature of the remaining properties fails verification. */
  lemma TamperedFails(g: Gateway, p: Params, h: string)
    requires Get(p, SecureHashKey) == None
    requires h != Signature(g, p)
    ensures !VerifyResult(g, p + [Param(SecureHashKey, Text(h))])
  {
    GetAppended(p, SecureHashKey, Text(h));
    RemoveAppended(p, SecureHashKey, Text(h));
  }

  /** Signing keeps the object's keys distinct when they were. */
  lemma SignedDistinct(g: Gateway, p: Params)
    requires DistinctKeys(p)
    requires Get(p, SecureHashKey) == None
    ensures DistinctKeys(Signed(g, p))
  {
    GetNone(p, SecureHashKey);
  }

  lemma {:induction false} GetAbsent(s: Params, key: string)
    requires forall p | p in s :: p.key != key
    ensures Get(s, key) == None
    decreases |s|
  {
    if s != [] {
      GetAbsent(s[1..], key);
    }
  }

  lemma {:induction false} GetAppendedOther(s: Params, p: Param, key: string)
    requires p.key != key
    ensures Get(s + [p], key) == Get(s, key)
    decreases |s|
  {
    if s != [] {
      assert (s + [p])[1..] == s[1..] + [p];
      GetAppendedOther(s[1..], p, key);
    }
  }

  /** Properties placed after others with different keys are found as if on their own. */
  lemma {:induction false} GetAfter(s: Params, t: Params, key: string)
    requires KeyAbsent(s, key)
    ensures Get(s + t, key) == Get(t, key)
    decreases |s|
  {
    if s != [] {
      assert s[0] in s && (s + t)[0] == s[0];
      assert (s + t)[1..] == s[1..] + t;
      assert forall x | x in s[1..] :: x in s;
      GetAfter(s[1..], t, key);
    } else {
      assert s + t == t;
    }
  }

  /** The unsigned request has no `vnp_SecureHash` property. */
  lemma RequestHasNoHash(g: Gateway, orderId: string, orderTotal: real, discount: real, createDate: string)
    ensures Get(RequestParams(g, orderId, orderTotal, discount, createDate), SecureHashKey) == None
  {
    GetAbsent(RequestParams(g, orderId, orderTotal, discount, createDate), SecureHashKey);
  }

  /** The request states the amount in minor units: a hundred times the amount due. */
  lemma RequestAmount(g: Gateway, orderId: string, orderTotal: real, discount: real, createDate: string)
    ensures Get(RequestParams(g, orderId, orderTotal, discount, createDate), "vnp_Amount") == Some(Number((orderTotal - discount) * 100.0))
  {
    var r := RequestParams(g, orderId, orderTotal, discount, createDate);
    assert r == r[..2] + r[2..];
    GetAfter(r[..2], r[2..], "vnp_Amount");
  }

  /** The request uses the order id as the transaction reference. */
  lemma RequestTxnRef(g: Gateway, orderId: string, orderTotal: real, discount: real, createDate: string)
    ensures Get(RequestParams(g, orderId, orderTotal, discount, createDate), "vnp_TxnRef") == Some(Text(orderId))
  {
    var r := RequestParams(g, orderId, orderTotal, discount, createDate);
    assert r == r[..10] + r[10..];
    GetAfter(r[..10], r[10..], "vnp_TxnRef");
  }

  /** The signed request carries the amount in minor units and the order id as transaction
      reference, and passes verification (the create-then-verify round trip). */
  lemma SignedRequestFacts(g: Gateway, orderId: string, orderTotal: real, discount: real, createDate: string)
    ensures var signed := Signed(g, RequestParams(g, orderId, orderTotal, discount, createDate));
      && Get(signed, "vnp_Amount") == Some(Number((orderTotal - discount) * 100.0))
      && Get(signed, "vnp_TxnRef") == Some(Text(orderId))
      && Remove(signed, SecureHashKey) == RequestParams(g, orderId, orderTotal, discount, createDate)
      && VerifyResult(g, signed)
  {
    var p := RequestParams(g, orderId, orderTotal, discount, createDate);
    var h := Param(SecureHashKey, Text(Signature(g, p)));
    RequestHasNoHash(g, orderId, orderTotal, discount, createDate);
    RequestAmount(g, orderId, orderTotal, discount, createDate);
    RequestTxnRef(g, orderId, orderTotal, discount, createDate);
    SignedVerifies(g, p);
    GetAppendedOther(p, h, "vnp_Amount");
    GetAppendedOther(p, h, "vnp_TxnRef");
  }

  /** Computes the hash of `p` and stores it as `vnp_SecureHash`. */
  method SignParams(g: Gateway, p: Params) returns (params: Params)
    ensures params == Signed(g, p)
  {
    var hash := GenerateHash(g, p);
    params := p + [Param(SecureHashKey, Text(hash))];
  }

  /** `createVnpayPaymentRequest(order, discount)`: the request parameters for the amount due,
      signed, and the gateway URL. */

  method CreateVnpayPaymentRequest(g: Gateway, orderId: string, orderTotal: real, discount: real,
                                   createDate: string)
    returns (params: Params, url: string)
    ensures params == Signed(g, RequestParams(g, orderId, orderTotal, discount, createDate))
    ensures url == g.url
  {
    params := SignParams(g, RequestParams(g, orderId, orderTotal, discount, createDate));
    url := g.url;
  }

  /** The query object of the gateway's callback, which verification alters in place. */
  class QueryParams {
    var entries: Params

    ghost predicate Valid()
      reads this
    {
      DistinctKeys(entries)
    }

    constructor (entries: Params)
      requires DistinctKeys(entries)
      ensures Valid() && this.entries == entries
    {
      this.entries := entries;
    }

    /** `delete this[key]`. */
    method Delete(key: string)
      requires Valid()
      modifies this
      ensures Valid()
      ensures entries == Remove(old(entries), key)
    {
      entries := Remove(entries, key);
    }
  }

  /** `verifyPaymentReturn(queryParams)`: removes `vnp_SecureHash` from the object it is given and
      answers whether the removed hash equals the signature of what remains. */
  method VerifyPaymentReturn(g: Gateway, query: QueryParams) returns (ok: bool)
    requires query.Valid()
    modifies query
    ensures query.Valid()
    ensures query.entries == Remove(old(query.entries), SecureHashKey)
    ensures ok <==> old(Get(query.entries, SecureHashKey)) == Some(Text(Signature(g, query.entries)))
    ensures ok == VerifyResult(g, old(query.entries))
  {
    var secureHash := Get(query.entries, SecureHashKey);
    query.Delete(SecureHashKey);
    var calculated := GenerateHash(g, query.entries);
    ok := secureHash == Some(Text(calculated));
  }
}
