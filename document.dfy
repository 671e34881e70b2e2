/**
 * The engine configuration document as an abstract tree of objects, arrays
 * and scalars, and the order in which its object keys are written out
 * (the serialiser is asked for sorted keys).
 */
module Document {
  import opened Configuration

  /**
   * A JSON value. `Encoded` stands for the JSON encoding of a typed value
   * (a payload struct, the routing model), whose field-by-field layout is
   * not part of this model.
   */
  datatype Json =
    | JBool(b: bool)
    | JInt(n: int)
    | JStr(s: string)
    | JArr(items: seq<Json>)
    | JObj(fields: map<string, Json>)
    | Encoded(value: Encodable)

  /** The typed values that reach the document through the JSON encoder. */
  datatype Encodable =
    | VLESSValue(vless: VLESS)
    | VMessValue(vmess: VMess)
    | TrojanValue(trojan: Trojan)
    | ShadowsocksValue(shadowsocks: Shadowsocks)
    | TCPValue(tcp: TCP)
    | KCPValue(kcp: KCP)
    | WSValue(ws: WS)
    | HTTPValue(http: HTTP)
    | QUICValue(quic: QUIC)
    | GRPCValue(grpc: GRPC)
    | TLSValue(tls: TLS)
    | RealityValue(reality: Reality)
    | RouteValue(options: Json, rules: seq<RouteRule>)

  /** A routing rule: its `__enabled__` flag and the rest of its fields, kept opaque. */
  datatype RouteRule = RouteRule(enabled: bool, settings: Json)

  // ---------------------------------------------------------------------------
  // Lexicographic order on keys

  /**
   * `a` sorts strictly before `b`: a proper prefix, or a smaller character code
   * at the first difference. No case folding or numeric comparison of digits.
   */
  predicate Less(a: string, b: string)
    decreases |a|
  {
    if |b| == 0 then false
    else if |a| == 0 then true
    else if a[0] != b[0] then a[0] < b[0]
    else Less(a[1..], b[1..])
  }

  lemma {:induction false} LessIrreflexive(a: string)
    ensures !Less(a, a)
    decreases |a|
  {
    if |a| > 0 {
      LessIrreflexive(a[1..]);
    }
  }

  lemma {:induction false} LessTransitive(a: string, b: string, c: string)
    requires Less(a, b) && Less(b, c)
    ensures Less(a, c)
    decreases |a|
  {
    if |a| > 0 && a[0] == b[0] && b[0] == c[0] {
      LessTransitive(a[1..], b[1..], c[1..]);
    }
  }

  lemma {:induction false} LessTotal(a: string, b: string)
    requires a != b
    ensures Less(a, b) || Less(b, a)
    decreases |a|
  {
    if |a| > 0 && |b| > 0 && a[0] == b[0] {
      assert a == [a[0]] + a[1..] && b == [b[0]] + b[1..];
      LessTotal(a[1..], b[1..]);
    }
  }

  lemma LessAsymmetric(a: string, b: string)
    requires Less(a, b)
    ensures !Less(b, a)
  {
    if Less(b, a) {
      LessTransitive(a, b, a);
      LessIrreflexive(a);
    }
  }

  predicate StrictlySorted(keys: seq<string>) {
    forall i, j :: 0 <= i < j < |keys| ==> Less(keys[i], keys[j])
  }

  /** A listing whose neighbours are in order is strictly sorted throughout. */
  lemma {:induction false} AdjacentSorted(keys: seq<string>)
    requires forall i :: 0 <= i < |keys| - 1 ==> Less(keys[i], keys[i + 1])
    ensures StrictlySorted(keys)
    decreases |keys|
  {
    if |keys| > 1 {
      var tail := keys[1..];
      forall i | 0 <= i < |tail| - 1 ensures Less(tail[i], tail[i + 1]) {
        assert tail[i] == keys[i + 1] && tail[i + 1] == keys[i + 2];
      }
      AdjacentSorted(tail);
      forall i, j | 0 <= i < j < |keys| ensures Less(keys[i], keys[j]) {
        if i > 0 {
          assert keys[i] == tail[i - 1] && keys[j] == tail[j - 1];
        } else if j > 1 {
          assert keys[1] == tail[0] && keys[j] == tail[j - 1];
          LessTransitive(keys[0], keys[1], keys[j]);
        }
      }
    }
  }

  /** Every non-empty finite set of keys has a least element. */
  lemma {:induction false} LeastKey(keys: set<string>) returns (k: string)
    requires keys != {}
    ensures k in keys && forall j :: j in keys && j != k ==> Less(k, j)
    decreases |keys|
  {
    var x :| x in keys;
    if keys == {x} {
      return x;
    }
    var rest := keys - {x};
    var m := LeastKey(rest);
    LessTotal(x, m);
    if Less(x, m) {
      forall j | j in keys && j != x ensures Less(x, j) {
        if j != m {
          assert j in rest;
          LessTransitive(x, m, j);
        }
      }
      k := x;
    } else {
      forall j | j in keys && j != m ensures Less(m, j) {
        if j != x {
          assert j in rest;
        }
      }
      k := m;
    }
  }

  /**
   * The keys of an object in increasing `Less` order. On the key sets the
   * compiler writes (any two differ first at a pair of lower-case letters), this is the
   * order the serialiser writes them in.
   */
  ghost function SortedKeys(keys: set<string>): (r: seq<string>)
    ensures |r| == |keys|
    ensures forall k :: k in r <==> k in keys
    ensures StrictlySorted(r)
    decreases |keys|
  {
    if keys == {} then []
    else
      assert exists k :: k in keys && forall j :: j in keys && j != k ==> Less(k, j) by {
        var least := LeastKey(keys);
      }
      var k :| k in keys && forall j :: j in keys && j != k ==> Less(k, j);
      [k] + SortedKeys(keys - {k})
  }

  /** Two strictly sorted key sequences with the same elements are equal. */
  lemma {:induction false} SortedUnique(a: seq<string>, b: seq<string>)
    requires StrictlySorted(a) && StrictlySorted(b)
    requires forall k :: k in a <==> k in b
    ensures a == b
    decreases |a|
  {
    assert a != [] ==> a[0] in b;
    assert b != [] ==> b[0] in a;
    if a != [] && b != [] {
      assert a[0] in b && b[0] in a;
      if a[0] != b[0] {
        var i :| 0 <= i < |a| && a[i] == b[0];
        var j :| 0 <= j < |b| && b[j] == a[0];
        assert Less(b[0], a[0]) by {
          LessIrreflexive(a[0]);
          assert i != 0;
        }
        assert Less(a[0], b[0]) by {
          LessIrreflexive(b[0]);
          assert j != 0;
        }
        LessAsymmetric(a[0], b[0]);
      }
      forall k ensures k in a[1..] <==> k in b[1..] {
        if k in a[1..] {
          var i :| 0 <= i < |a| - 1 && a[1..][i] == k;
          assert Less(a[0], a[i + 1]);
          LessIrreflexive(k);
          assert k in b;
          var j :| 0 <= j < |b| && b[j] == k;
          assert j != 0;
          assert b[1..][j - 1] == k;
        }
        if k in b[1..] {
          var j :| 0 <= j < |b| - 1 && b[1..][j] == k;
          assert Less(b[0], b[j + 1]);
          LessIrreflexive(k);
          assert k in a;
          var i :| 0 <= i < |a| && a[i] == k;
          assert i != 0;
          assert a[1..][i - 1] == k;
        }
      }
      SortedUnique(a[1..], b[1..]);
      assert a == [a[0]] + a[1..] && b == [b[0]] + b[1..];
    }
  }

  /** A listing that is strictly sorted and holds exactly the keys is the serialiser's order. */
  lemma SortedKeysAre(keys: set<string>, listing: seq<string>)
    requires StrictlySorted(listing)
    requires forall k :: k in listing <==> k in keys
    ensures SortedKeys(keys) == listing
  {
    SortedUnique(SortedKeys(keys), listing);
  }
}
