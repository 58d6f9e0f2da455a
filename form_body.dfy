/** The `application/x-www-form-urlencoded` body decoder: split the body on
    `&`, each pair on `=`, turn `+` into a space in the value, percent-decode
    the value (the key is kept as written), and fold the pairs into one
    object in which a later pair overwrites an earlier one with the same key.
    `None` stands for the exception the decoder throws: a pair without `=`
    (its value is `undefined`, so `value.replace` fails) or a malformed
    percent escape (`decodeURIComponent` fails). */
module FormBody {
  import opened Js

  /** `value.replace(/\+/g, " ")`. */
  function PlusToSpace(s: string): (r: string)
    ensures |r| == |s|
    ensures forall i :: 0 <= i < |s| ==> r[i] == if s[i] == '+' then ' ' else s[i]
    ensures '+' !in r
  {
    if s == [] then [] else [if s[0] == '+' then ' ' else s[0]] + PlusToSpace(s[1..])
  }

  predicate IsHex(c: char) {
    '0' <= c <= '9' || 'a' <= c <= 'f' || 'A' <= c <= 'F'
  }

  function HexValue(c: char): (v: nat)
    requires IsHex(c)
    ensures v < 16
  {
    if '0' <= c <= '9' then (c as int) - ('0' as int)
    else if 'a' <= c <= 'f' then (c as int) - ('a' as int) + 10
    else (c as int) - ('A' as int) + 10
  }

  /** `decodeURIComponent` on escapes of single ASCII characters: `%XX` with
      two hex digits below `80` becomes that character, any other `%` makes
      the decoding fail, every other character stands for itself. */
  function PercentDecode(s: string): (r: Option<string>)
    ensures r.Some? ==> |r.value| <= |s|
    ensures '%' !in s ==> r == Some(s)
  {
    if s == [] then Some([])
    else if s[0] != '%' then
      assert s == [s[0]] + s[1..];
      match PercentDecode(s[1..])
      case None => None
      case Some(t) => Some([s[0]] + t)
    else if |s| >= 3 && IsHex(s[1]) && IsHex(s[2]) && HexValue(s[1]) * 16 + HexValue(s[2]) < 0x80 then
      match PercentDecode(s[3..])
      case None => None
      case Some(t) => Some([(HexValue(s[1]) * 16 + HexValue(s[2])) as char] + t)
    else None
  }

  /** The decoded value of one `value` text: `+` first, escapes second. */
  function DecodeValue(v: string): (r: Option<string>)
    ensures r.Some? ==> |r.value| <= |v|
    ensures '%' !in v ==> r == Some(PlusToSpace(v))
  {
    var p := PlusToSpace(v);
    assert '%' !in v ==> '%' !in p by {
      if '%' in p {
        var i :| 0 <= i < |p| && p[i] == '%';
        assert v[i] == '%';
      }
    }
    PercentDecode(p)
  }

  /** One `key=value` piece: the key as written and the decoded value; text
      after a second `=` is dropped. */
  function DecodePair(kv: string): (r: Option<(string, string)>)
    ensures '=' !in kv ==> r == None
    ensures r.Some? ==> '=' !in r.value.0 && StartsWith(kv, r.value.0 + "=")
  {
    var parts := Split(kv, '=');
    KeyBeforeFirstEquals(kv);
    if |parts| < 2 then None
    else
      match DecodeValue(parts[1])
      case None => None
      case Some(v) => Some((parts[0], v))
  }

  /** The first piece of `kv.split("=")` is the text before the first `=`;
      there is a second piece exactly when `kv` holds an `=`. */
  lemma KeyBeforeFirstEquals(kv: string)
    ensures |Split(kv, '=')| >= 2 <==> '=' in kv
    ensures |Split(kv, '=')| >= 2 ==> StartsWith(kv, Split(kv, '=')[0] + "=")
  {
    var parts := Split(kv, '=');
    JoinSplit(kv, '=');
    if |parts| >= 2 {
      assert kv == parts[0] + ['='] + Join(parts[1..], '=');
      assert kv[..|parts[0]| + 1] == parts[0] + "=";
    } else {
      assert kv == parts[0];
    }
  }

  /** All pieces decode, or the whole body fails. */
  function DecodePairs(kvs: seq<string>): (r: Option<seq<(string, string)>>)
    ensures r.Some? <==> forall i :: 0 <= i < |kvs| ==> DecodePair(kvs[i]).Some?
    ensures r.Some? ==> (|r.value| == |kvs| &&
                         forall i :: 0 <= i < |kvs| ==> DecodePair(kvs[i]) == Some(r.value[i]))
  {
    if kvs == [] then Some([])
    else
      match DecodePair(kvs[0])
      case None => None
      case Some(p) =>
        match DecodePairs(kvs[1..])
        case None => None
        case Some(ps) => Some([p] + ps)
  }

  /** The `reduce` step: assign the pairs into an object from first to last. */
  function Collect(pairs: seq<(string, string)>): (m: map<string, string>)
    ensures m.Keys == set i | 0 <= i < |pairs| :: pairs[i].0
  {
    if pairs == [] then map[]
    else
      var last := pairs[|pairs| - 1];
      var init := Collect(pairs[..|pairs| - 1]);
      assert forall i :: 0 <= i < |pairs| - 1 ==> pairs[..|pairs| - 1][i] == pairs[i];
      init[last.0 := last.1]
  }

  /** The decoded body, or `None` when decoding throws. */
  function FormDecode(raw: string): (r: Option<map<string, string>>)
    ensures r.Some? <==> forall i :: 0 <= i < |Split(raw, '&')| ==> DecodePair(Split(raw, '&')[i]).Some?
    ensures r.Some? ==> forall k :: k in r.value ==> '=' !in k
  {
    var pieces := Split(raw, '&');
    var decoded := DecodePairs(pieces);
    if decoded.None? then
      var i :| 0 <= i < |pieces| && DecodePair(pieces[i]).None?;
      assert DecodePair(Split(raw, '&')[i]).None?;
      None
    else
      var m := Collect(decoded.value);
      assert forall k :: k in m ==> '=' !in k by {
        forall k | k in m ensures '=' !in k {
          var i :| 0 <= i < |decoded.value| && decoded.value[i].0 == k;
          assert DecodePair(pieces[i]) == Some(decoded.value[i]);
        }
      }
      Some(m)
  }

  /** When a key repeats, the value of its last occurrence wins. */
  lemma {:induction false} CollectLastWins(pairs: seq<(string, string)>, i: nat)
    requires i < |pairs|
    requires forall j :: i < j < |pairs| ==> pairs[j].0 != pairs[i].0
    ensures pairs[i].0 in Collect(pairs) && Collect(pairs)[pairs[i].0] == pairs[i].1
  {
    if i < |pairs| - 1 {
      var init := pairs[..|pairs| - 1];
      assert init[i] == pairs[i];
      assert forall j :: i < j < |init| ==> init[j] == pairs[j];
      CollectLastWins(init, i);
    }
  }

  // ---------------------------------------------------------------------------
  // The inverse direction: an encoder whose output the decoder reads back.

  /** How a browser escapes one character of a form value. */
  function EscapeChar(c: char): string {
    if c == ' ' then "+"
    else if c == '%' then "%25"
    else if c == '+' then "%2B"
    else if c == '&' then "%26"
    else if c == '=' then "%3D"
    else [c]
  }

  function EncodeValue(v: string): (e: string)
    ensures '&' !in e && '=' !in e
  {
    if v == [] then [] else EscapeChar(v[0]) + EncodeValue(v[1..])
  }

  lemma {:induction false} PlusToSpaceAppend(a: string, b: string)
    ensures PlusToSpace(a + b) == PlusToSpace(a) + PlusToSpace(b)
  {
    if a == [] {
      assert a + b == b;
    } else {
      assert (a + b)[1..] == a[1..] + b;
      PlusToSpaceAppend(a[1..], b);
    }
  }

  lemma EscapeCharDecodes(c: char, rest: string)
    ensures PercentDecode(PlusToSpace(EscapeChar(c)) + rest) ==
      match PercentDecode(rest) case None => None case Some(t) => Some([c] + t)
  {
    var esc := EscapeChar(c);
    var e := PlusToSpace(esc) + rest;
    if c == '%' || c == '+' || c == '&' || c == '=' {
      assert |esc| == 3 && esc[0] == '%';
      assert PlusToSpace(esc) == esc by {
        assert PlusToSpace(esc[2..]) == esc[2..];
        assert PlusToSpace(esc[1..]) == esc[1..];
      }
      assert e[0] == '%' && e[1] == esc[1] && e[2] == esc[2];
      assert (HexValue(esc[1]) * 16 + HexValue(esc[2])) as char == c;
      assert e[3..] == rest;
    } else if c == ' ' {
      assert PlusToSpace(esc) == " ";
      assert e[1..] == rest;
    } else {
      assert PlusToSpace(esc) == [c];
      assert e[1..] == rest;
    }
  }

  /** Decoding undoes the encoding of a value. */
  lemma {:induction false} EncodeValueDecodes(v: string)
    ensures DecodeValue(EncodeValue(v)) == Some(v)
  {
    if v != [] {
      EncodeValueDecodes(v[1..]);
      PlusToSpaceAppend(EscapeChar(v[0]), EncodeValue(v[1..]));
      EscapeCharDecodes(v[0], PlusToSpace(EncodeValue(v[1..])));
      assert [v[0]] + v[1..] == v;
    }
  }

  function EncodePair(p: (string, string)): string {
    p.0 + "=" + EncodeValue(p.1)
  }

  /** `key=value&key=value...` for a non-empty list of pairs. */
  function FormEncode(pairs: seq<(string, string)>): string
    requires |pairs| >= 1
  {
    Join(seq(|pairs|, i requires 0 <= i < |pairs| => EncodePair(pairs[i])), '&')
  }

  lemma EncodePairDecodes(p: (string, string))
    requires '&' !in p.0 && '=' !in p.0
    ensures '&' !in EncodePair(p)
    ensures DecodePair(EncodePair(p)) == Some(p)
  {
    var e := EncodeValue(p.1);
    assert EncodePair(p) == Join([p.0, e], '=');
    SplitJoin([p.0, e], '=');
    EncodeValueDecodes(p.1);
  }

  /** A body written by the encoder, with keys free of `&` and `=`, decodes
      to the object the pairs describe, later pairs overriding earlier ones. */
  lemma FormRoundTrip(pairs: seq<(string, string)>)
    requires |pairs| >= 1
    requires forall i :: 0 <= i < |pairs| ==> '&' !in pairs[i].0 && '=' !in pairs[i].0
    ensures FormDecode(FormEncode(pairs)) == Some(Collect(pairs))
  {
    var items := seq(|pairs|, i requires 0 <= i < |pairs| => EncodePair(pairs[i]));
    forall i | 0 <= i < |pairs|
      ensures '&' !in items[i] && DecodePair(items[i]) == Some(pairs[i])
    {
      EncodePairDecodes(pairs[i]);
    }
    SplitJoin(items, '&');
    var r := DecodePairs(items);
    assert r.Some? && r.value == pairs;
  }

  /** A piece whose value holds no `+`, `%` or `=` decodes to its two halves. */
  lemma PlainPairDecodes(k: string, v: string)
    requires '=' !in k && '=' !in v && '+' !in v && '%' !in v
    ensures DecodePair(k + "=" + v) == Some((k, v))
  {
    SplitNoSeparator(v, '=');
    SplitAtSeparator(k, v, '=');
    PlusToSpaceIdentity(v);
  }

  lemma {:induction false} PlusToSpaceIdentity(s: string)
    requires '+' !in s
    ensures PlusToSpace(s) == s
  {
    if s != [] {
      PlusToSpaceIdentity(s[1..]);
      assert [s[0]] + s[1..] == s;
    }
  }

  lemma PlusInValue()
    ensures DecodeValue("c+d") == Some("c d")
  {
    assert PlusToSpace("c+d") == "c d" by {
      assert PlusToSpace("d") == "d";
      assert PlusToSpace("+d") == " d";
    }
    assert '%' !in "c d";
  }

  /** The key is not decoded, while `+` in the value becomes a space. */
  lemma KeyKeptValueDecoded()
    ensures DecodePair("a%20b=c+d") == Some(("a%20b", "c d"))
  {
    assert Split("a%20b=c+d", '=') == ["a%20b", "c+d"] by {
      SplitNoSeparator("c+d", '=');
      SplitAtSeparator("a%20b", "c+d", '=');
      assert "a%20b" + ['='] + "c+d" == "a%20b=c+d";
    }
    PlusInValue();
  }

  /** `+` is replaced before escapes are decoded, so an escaped `+` survives. */
  lemma PlusBeforePercent()
    ensures DecodeValue("%2B+") == Some("+ ")
  {
    assert PlusToSpace("%2B+") == "%2B " by {
      assert PlusToSpace("+") == " ";
      assert PlusToSpace("B+") == "B ";
      assert PlusToSpace("2B+") == "2B ";
    }
    var t := "%2B ";
    assert t[3..] == " " && PercentDecode(t[3..]) == Some(" ");
    assert IsHex(t[1]) && IsHex(t[2]) && HexValue(t[1]) * 16 + HexValue(t[2]) == 43;
    assert (43 as char) == '+' && ['+'] + " " == "+ ";
  }

  /** A second `=` in a piece truncates the value. */
  lemma SecondEqualsTruncates()
    ensures DecodePair("k=v=w") == Some(("k", "v"))
  {
    assert Split("k=v=w", '=') == ["k", "v", "w"] by {
      SplitNoSeparator("w", '=');
      SplitAtSeparator("v", "w", '=');
      SplitAtSeparator("k", "v=w", '=');
      assert "v" + ['='] + "w" == "v=w";
      assert "k" + ['='] + "v=w" == "k=v=w";
    }
  }

  /** A piece without `=` makes the whole body fail. */
  lemma MissingEqualsFails()
    ensures FormDecode("name") == None
  {
    SplitNoSeparator("name", '&');
    SplitNoSeparator("name", '=');
  }

  /** A body of two pieces decodes to the fold of their two pairs. */
  lemma TwoPieceBody(raw: string, a: string, b: string, p: (string, string), q: (string, string))
    requires raw == a + "&" + b
    requires '&' !in a && '&' !in b
    requires DecodePair(a) == Some(p) && DecodePair(b) == Some(q)
    ensures FormDecode(raw) == Some(Collect([p, q]))
  {
    SplitNoSeparator(b, '&');
    SplitAtSeparator(a, b, '&');
    assert a + ['&'] + b == raw;
    var r := DecodePairs([a, b]);
    assert r.Some? && r.value[0] == p && r.value[1] == q;
    assert r.value == [p, q];
  }

  lemma RepeatedKeyPairs(k: string, v1: string, v2: string)
    requires '&' !in k && '=' !in k
    requires '&' !in v1 && '=' !in v1 && '+' !in v1 && '%' !in v1
    requires '&' !in v2 && '=' !in v2 && '+' !in v2 && '%' !in v2
    ensures FormDecode(k + "=" + v1 + "&" + k + "=" + v2) == Some(Collect([(k, v1), (k, v2)]))
  {
    var a, b := k + "=" + v1, k + "=" + v2;
    var raw := k + "=" + v1 + "&" + k + "=" + v2;
    assert raw == a + "&" + b;
    assert '&' !in a && '&' !in b;
    PlainPairDecodes(k, v1);
    PlainPairDecodes(k, v2);
    TwoPieceBody(raw, a, b, (k, v1), (k, v2));
  }

  lemma CollectRepeatedKey(k: string, v1: string, v2: string)
    ensures Collect([(k, v1), (k, v2)]) == map[k := v2]
  {
    var pairs := [(k, v1), (k, v2)];
    CollectLastWins(pairs, 1);
    assert Collect(pairs).Keys == {k};
  }

  /** A repeated key keeps its last value. */
  lemma RepeatedKeyLastWins(k: string, v1: string, v2: string)
    requires '&' !in k && '=' !in k
    requires forall c :: c in v1 + v2 ==> c !in "&=+%"
    ensures FormDecode(k + "=" + v1 + "&" + k + "=" + v2) == Some(map[k := v2])
  {
    assert forall c :: c in v1 ==> c in v1 + v2;
    assert forall c :: c in v2 ==> c in v1 + v2;
    RepeatedKeyPairs(k, v1, v2);
    CollectRepeatedKey(k, v1, v2);
  }
}
