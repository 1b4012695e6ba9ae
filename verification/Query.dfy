/** The query string that the browser prints and the server parses, over the UTF-8 bytes of
    the strings: `encodeURIComponent` (ECMA-262, section 19.2.6.4), the percent-encoding that
    the browser's URL parser adds to a special query, and the parsing of
    application/x-www-form-urlencoded (WHATWG URL Standard, section 5.1). */
module Query {
  import opened Common

  const AMP: Byte := 0x26
  const EQ: Byte := 0x3D
  const PCT: Byte := 0x25
  const PLUS: Byte := 0x2B
  const SPACE: Byte := 0x20
  const QUOTE: Byte := 0x27

  // The one-letter keys of the query.
  const T: Byte := 0x74
  const P: Byte := 0x70
  const U: Byte := 0x75
  const N: Byte := 0x6E
  const V: Byte := 0x76

  predicate Digit(b: Byte) { 0x30 <= b <= 0x39 }

  predicate Letter(b: Byte) { 0x41 <= b <= 0x5A || 0x61 <= b <= 0x7A }

  /** Letters, digits and - _ . ! ~ * ' ( ) stand for themselves. */
  predicate Unreserved(b: Byte) {
    Letter(b) || Digit(b) || b in {0x2D, 0x5F, 0x2E, 0x21, 0x7E, 0x2A, QUOTE, 0x28, 0x29}
  }

  function HexDigit(n: nat): Byte
    requires n < 16
  {
    if n < 10 then 0x30 + n else 0x41 + (n - 10)
  }

  function HexValue(b: Byte): Option<nat> {
    if 0x30 <= b <= 0x39 then Some(b - 0x30)
    else if 0x41 <= b <= 0x46 then Some(b - 0x41 + 10)
    else if 0x61 <= b <= 0x66 then Some(b - 0x61 + 10)
    else None
  }

  function Escape(b: Byte): Bytes { [PCT, HexDigit(b / 16), HexDigit(b % 16)] }

  // ---------- The browser's side ----------

  function EncodeComponent(value: Bytes): Bytes {
    if value == [] then []
    else (if Unreserved(value[0]) then [value[0]] else Escape(value[0])) + EncodeComponent(value[1..])
  }

  /** What the URL parser escapes in the query of a special URL. */
  predicate InSpecialQuerySet(b: Byte) {
    b <= 0x1F || b > 0x7E || b in {SPACE, 0x22, 0x23, 0x3C, 0x3E, QUOTE}
  }

  function SpecialQuery(query: Bytes): Bytes {
    if query == [] then []
    else (if InSpecialQuerySet(query[0]) then Escape(query[0]) else [query[0]]) + SpecialQuery(query[1..])
  }

  /** `&k=` and the encoded value, for each value. */
  function Fields(key: Byte, values: seq<Bytes>): Bytes {
    if values == [] then []
    else [AMP, key, EQ] + EncodeComponent(values[0]) + Fields(key, values[1..])
  }

  function UploadQuery(token: Bytes, dest: seq<Bytes>, filename: Option<Bytes>): Bytes {
    [T, EQ] + token + Fields(U, dest) + Fields(N, if filename.Some? then [filename.value] else [])
  }

  function DownloadQuery(token: Bytes, files: seq<Bytes>): Bytes {
    [T, EQ] + token + Fields(P, files)
  }

  function PreviewQuery(token: Bytes, path: Bytes): Bytes {
    [T, EQ] + token + Fields(V, [path])
  }

  // ---------- The server's side ----------

  /** `+` is a space, and an escape with two hexadecimal digits a byte. */
  function Decode(s: Bytes): Bytes {
    if s == [] then []
    else if s[0] == PCT && |s| >= 3 && HexValue(s[1]).Some? && HexValue(s[2]).Some? then
      [HexValue(s[1]).value * 16 + HexValue(s[2]).value] + Decode(s[3..])
    else if s[0] == PLUS then [SPACE] + Decode(s[1..])
    else [s[0]] + Decode(s[1..])
  }

  /** The place of the first `c`, or the length. */
  function Find(s: Bytes, c: Byte): (n: nat)
    ensures n <= |s| && (n < |s| ==> s[n] == c) && c !in s[..n]
  {
    if s == [] || s[0] == c then 0 else 1 + Find(s[1..], c)
  }

  type Pair = (Bytes, Bytes)

  /** A field without `=` is a key with an empty value. */
  function ParseField(field: Bytes): Pair {
    var n := Find(field, EQ);
    (Decode(field[..n]), Decode(if n < |field| then field[n + 1..] else []))
  }

  /** Empty fields are passed over. */
  function Parse(query: Bytes): seq<Pair>
    decreases |query|
  {
    if query == [] then []
    else
      var n := Find(query, AMP);
      (if n == 0 then [] else [ParseField(query[..n])]) +
      (if n < |query| then Parse(query[n + 1..]) else [])
  }

  /** The rules of the decoding: a plus is a space, a percent sign with two hexadecimal digits of
      either case is a byte, and everything else, a stray percent sign included, is itself. */
  lemma DecodeRules(b: Byte, rest: Bytes)
    ensures Decode([]) == []
    ensures Decode([0x2B] + rest) == [0x20] + Decode(rest)
    ensures b != 0x2B && b != 0x25 ==> Decode([b] + rest) == [b] + Decode(rest)
    ensures |rest| < 2 || HexValue(rest[0]).None? || HexValue(rest[1]).None? ==>
              Decode([0x25] + rest) == [0x25] + Decode(rest)
  {
    assert ([0x2B] + rest)[1..] == rest && ([b] + rest)[1..] == rest && ([0x25] + rest)[1..] == rest;
  }

  lemma DecodeEscape(hi: nat, lo: nat, upper: bool, rest: Bytes)
    requires hi < 16 && lo < 16
    ensures Decode([0x25, Digit16(hi, upper), Digit16(lo, !upper)] + rest) == [16 * hi + lo] + Decode(rest)
    ensures Decode([0x25, Digit16(hi, upper), Digit16(lo, upper)] + rest) == [16 * hi + lo] + Decode(rest)
  {
    assert ([0x25, Digit16(hi, upper), Digit16(lo, !upper)] + rest)[3..] == rest;
    assert ([0x25, Digit16(hi, upper), Digit16(lo, upper)] + rest)[3..] == rest;
  }

  /** A hexadecimal digit, in upper or lower case. */
  function Digit16(n: nat, upper: bool): Byte
    requires n < 16
  {
    if n < 10 then 0x30 + n else if upper then 0x41 + n - 10 else 0x61 + n - 10
  }

  /** The rules of the parsing: fields are separated by ampersands and passed over when empty;
      the first equals sign separates key and value. */
  lemma ParseRules(a: Bytes, b: Bytes)
    requires 0x26 !in a
    ensures Parse(a + [0x26] + b) == (if a == [] then [] else [ParseField(a)]) + Parse(b)
    ensures Parse(a) == if a == [] then [] else [ParseField(a)]
  {
    var q := a + [0x26] + b;
    assert a + ([0x26] + b) == q;
    FindIn(a, AMP, [0x26] + b);
    FindIn(a, AMP, []);
    assert a + [] == a;
    assert q[..|a|] == a && q[|a| + 1..] == b;
  }

  lemma FieldRules(key: Bytes, value: Bytes)
    requires 0x3D !in key
    ensures ParseField(key + [0x3D] + value) == (Decode(key), Decode(value))
    ensures ParseField(key) == (Decode(key), [])
  {
    var field := key + [0x3D] + value;
    assert key + ([0x3D] + value) == field;
    FindIn(key, EQ, [0x3D] + value);
    FindIn(key, EQ, []);
    assert key + [] == key;
    assert field[..|key|] == key && field[|key| + 1..] == value;
  }

  datatype Handler =
    | Download(files: seq<Bytes>)
    | Upload(dir: seq<Bytes>, filename: Option<Bytes>)
    | Preview(path: Bytes)
    | UnknownRequest
    | AuthFailed
    | NoToken                // not a request with a token at all

  /** The values of a key, in order. */
  function Values(pairs: seq<Pair>, key: Byte): seq<Bytes> {
    if pairs == [] then []
    else Values(pairs[..|pairs| - 1], key) +
         (if pairs[|pairs| - 1].0 == [key] then [pairs[|pairs| - 1].1] else [])
  }

  /** The last value of a key, if there is one. */
  function LastValue(pairs: seq<Pair>, key: Byte): Option<Bytes> {
    var vs := Values(pairs, key);
    if vs == [] then None else Some(vs[|vs| - 1])
  }

  /** Which handler the pairs behind the token select. */
  function Choose(pairs: seq<Pair>): Handler {
    if Values(pairs, P) != [] then Download(Values(pairs, P))
    else if Values(pairs, U) != [] then Upload(Values(pairs, U), LastValue(pairs, N))
    else if LastValue(pairs, V).Some? then Preview(LastValue(pairs, V).value)
    else UnknownRequest
  }

  /** The place of the first pair with the key `t`, or the length. */
  function FindToken(pairs: seq<Pair>): (n: nat)
    ensures n <= |pairs| && (n < |pairs| ==> pairs[n].0 == [T])
    ensures forall i :: 0 <= i < n ==> pairs[i].0 != [T]
  {
    if pairs == [] || pairs[0].0 == [T] then 0 else 1 + FindToken(pairs[1..])
  }

  function Dispatch(pairs: seq<Pair>, peers: set<Bytes>): Handler {
    var n := FindToken(pairs);
    if n == |pairs| then NoToken
    else if pairs[n].1 !in peers then AuthFailed
    else Choose(pairs[n + 1..])
  }

  /** The values of one pair more. */
  lemma ValuesNext(pairs: seq<Pair>, i: nat, key: Byte)
    requires i < |pairs|
    ensures Values(pairs[..i + 1], key) ==
            Values(pairs[..i], key) + if pairs[i].0 == [key] then [pairs[i].1] else []
    ensures LastValue(pairs[..i + 1], key) ==
            if pairs[i].0 == [key] then Some(pairs[i].1) else LastValue(pairs[..i], key)
  {
    assert pairs[..i + 1][..i] == pairs[..i];
  }

  /** Some pair from `from` on has the key. */
  predicate HasKey(pairs: seq<Pair>, from: nat, key: Byte) {
    exists i :: from <= i < |pairs| && pairs[i].0 == [key]
  }

  /** `values` are the values of all pairs from `from` on with the key, in order: there is one
      place for each of them, further on each time, and no other place has the key. */
  ghost predicate Picks(pairs: seq<Pair>, from: nat, key: Byte, values: seq<Bytes>) {
    exists places: seq<nat> :: PicksAt(pairs, from, key, values, places)
  }

  ghost predicate PicksAt(pairs: seq<Pair>, from: nat, key: Byte, values: seq<Bytes>, places: seq<nat>) {
    && |places| == |values|
    && (forall i :: 0 <= i < |places| ==>
          from <= places[i] < |pairs| && pairs[places[i]].0 == [key] && pairs[places[i]].1 == values[i])
    && (forall i, j | 0 <= i < j < |places| :: places[i] < places[j])
    && (forall k | from <= k < |pairs| && pairs[k].0 == [key] :: k in places)
  }

  /** The value of the last pair from `from` on with the key, if there is one. */
  ghost predicate IsLast(pairs: seq<Pair>, from: nat, key: Byte, value: Option<Bytes>) {
    match value
    case None => !HasKey(pairs, from, key)
    case Some(v) =>
      exists i :: from <= i < |pairs| && pairs[i] == ([key], v) &&
                  (forall k | i < k < |pairs| :: pairs[k].0 != [key])
  }

  lemma {:induction false} ValuesPicked(pairs: seq<Pair>, from: nat, upTo: nat, key: Byte) returns (places: seq<nat>)
    requires from <= upTo <= |pairs|
    ensures PicksAt(pairs[..upTo], from, key, Values(pairs[from..upTo], key), places)
  {
    if upTo == from {
      places := [];
    } else {
      places := ValuesPicked(pairs, from, upTo - 1, key);
      assert pairs[from..upTo][..upTo - from - 1] == pairs[from..upTo - 1];
      assert pairs[from..upTo][upTo - from - 1] == pairs[upTo - 1];
      if pairs[upTo - 1].0 == [key] { places := places + [upTo - 1]; }
      assert forall k | from <= k < upTo - 1 :: pairs[..upTo][k] == pairs[..upTo - 1][k];
    }
  }

  lemma PickedAll(pairs: seq<Pair>, from: nat, key: Byte, values: seq<Bytes>, places: seq<nat>)
    requires PicksAt(pairs, from, key, values, places)
    ensures values == [] <==> !HasKey(pairs, from, key)
    ensures values != [] ==> IsLast(pairs, from, key, Some(values[|values| - 1]))
  {
    if values != [] {
      var last := places[|places| - 1];
      assert pairs[last] == ([key], values[|values| - 1]);
      assert forall i :: 0 <= i < |places| ==> places[i] <= last;
    }
  }

  lemma ValuesAre(pairs: seq<Pair>, from: nat, key: Byte)
    requires from <= |pairs|
    ensures Picks(pairs, from, key, Values(pairs[from..], key))
    ensures Values(pairs[from..], key) == [] <==> !HasKey(pairs, from, key)
    ensures IsLast(pairs, from, key, LastValue(pairs[from..], key))
  {
    var places := ValuesPicked(pairs, from, |pairs|, key);
    assert pairs[..|pairs|] == pairs && pairs[from..|pairs|] == pairs[from..];
    PickedAll(pairs, from, key, Values(pairs[from..], key), places);
  }

  /** What is chosen by the pairs from `from` on, kind by kind. */
  lemma ChooseIs(pairs: seq<Pair>, from: nat)
    requires from <= |pairs|
    ensures var h := Choose(pairs[from..]);
            && !h.AuthFailed? && !h.NoToken?
            && (h.Download? <==> HasKey(pairs, from, P))
            && (h.Download? ==> Picks(pairs, from, P, h.files))
            && (h.Upload? <==> !HasKey(pairs, from, P) && HasKey(pairs, from, U))
            && (h.Upload? ==> Picks(pairs, from, U, h.dir) && IsLast(pairs, from, N, h.filename))
            && (h.Preview? <==> !HasKey(pairs, from, P) && !HasKey(pairs, from, U) && HasKey(pairs, from, V))
            && (h.Preview? ==> IsLast(pairs, from, V, Some(h.path)))
  {
    ValuesAre(pairs, from, P);
    ValuesAre(pairs, from, U);
    ValuesAre(pairs, from, N);
    ValuesAre(pairs, from, V);
  }

  lemma NoTokenAtAll(pairs: seq<Pair>, peers: set<Bytes>)
    ensures Dispatch(pairs, peers).NoToken? <==> !HasKey(pairs, 0, T)
  {
    assert FindToken(pairs) == |pairs| <==> !HasKey(pairs, 0, T);
  }

  lemma FirstToken(pairs: seq<Pair>, n: nat)
    requires n < |pairs| && pairs[n].0 == [T] && forall i :: 0 <= i < n ==> pairs[i].0 != [T]
    ensures FindToken(pairs) == n
  {
  }

  /** The answer to a request: without a token the request is none of this dispatcher's
      business; a token that nobody is signed in with is refused; else the first kind of value
      that there is behind the token decides, and the handler gets all of that kind, in order.
      The keys are t, p, u, n and v. */
  ghost predicate Served(pairs: seq<Pair>, peers: set<Bytes>, h: Handler) {
    && (h.NoToken? <==> !HasKey(pairs, 0, 0x74))
    && forall n | 0 <= n < |pairs| && IsToken(pairs, n) :: ServedBehind(pairs, n + 1, pairs[n].1 in peers, h)
  }

  /** The first pair with the key t. */
  ghost predicate IsToken(pairs: seq<Pair>, n: nat)
    requires n < |pairs|
  {
    pairs[n].0 == [0x74] && forall i :: 0 <= i < n ==> pairs[i].0 != [0x74]
  }

  ghost predicate ServedBehind(pairs: seq<Pair>, from: nat, known: bool, h: Handler) {
    && (h.AuthFailed? <==> !known)
    && (h.Download? <==> known && HasKey(pairs, from, 0x70))
    && (h.Download? ==> Picks(pairs, from, 0x70, h.files))
    && (h.Upload? <==> known && !HasKey(pairs, from, 0x70) && HasKey(pairs, from, 0x75))
    && (h.Upload? ==> Picks(pairs, from, 0x75, h.dir) && IsLast(pairs, from, 0x6E, h.filename))
    && (h.Preview? <==>
          known && !HasKey(pairs, from, 0x70) && !HasKey(pairs, from, 0x75) && HasKey(pairs, from, 0x76))
    && (h.Preview? ==> IsLast(pairs, from, 0x76, Some(h.path)))
  }

  lemma DispatchServes(pairs: seq<Pair>, peers: set<Bytes>)
    ensures Served(pairs, peers, Dispatch(pairs, peers))
  {
    NoTokenAtAll(pairs, peers);
    forall n | 0 <= n < |pairs| && IsToken(pairs, n)
      ensures ServedBehind(pairs, n + 1, pairs[n].1 in peers, Dispatch(pairs, peers))
    {
      ServesBehind(pairs, peers, n);
    }
  }

  lemma ServesBehind(pairs: seq<Pair>, peers: set<Bytes>, n: nat)
    requires n < |pairs| && IsToken(pairs, n)
    ensures ServedBehind(pairs, n + 1, pairs[n].1 in peers, Dispatch(pairs, peers))
  {
    FirstToken(pairs, n);
    ChooseIs(pairs, n + 1);
  }

  /** The dispatcher of the HTTP server: the pairs behind the token are gone through once. */
  method OnHttp(pairs: seq<Pair>, peers: set<Bytes>) returns (h: Handler)
    ensures h == Dispatch(pairs, peers)
    ensures Served(pairs, peers, h)
  {
    DispatchServes(pairs, peers);
    var n := FindToken(pairs);
    if n == |pairs| { return NoToken; }
    if pairs[n].1 !in peers { return AuthFailed; }
    var rest := pairs[n + 1..];
    var uploadDir, uploadFilename, preview, files := [], None, None, [];
    var i := 0;
    while i < |rest|
      invariant i <= |rest|
      invariant files == Values(rest[..i], P) && uploadDir == Values(rest[..i], U)
      invariant uploadFilename == LastValue(rest[..i], N) && preview == LastValue(rest[..i], V)
    {
      var (key, value) := rest[i];
      if key == [P] { files := files + [value]; }
      else if key == [U] { uploadDir := uploadDir + [value]; }
      else if key == [N] { uploadFilename := Some(value); }
      else if key == [V] { preview := Some(value); }
      ValuesNext(rest, i, P);
      ValuesNext(rest, i, U);
      ValuesNext(rest, i, N);
      ValuesNext(rest, i, V);
      i := i + 1;
    }
    assert rest[..i] == rest;
    if |files| != 0 { return Download(files); }
    else if |uploadDir| != 0 { return Upload(uploadDir, uploadFilename); }
    else if preview.Some? { return Preview(preview.value); }
    h := UnknownRequest;
  }

  // ---------- Round trip ----------

  /** The characters of a UUID. */
  predicate Uuid(token: Bytes) {
    forall b :: b in token ==> Digit(b) || 0x61 <= b <= 0x66 || b == 0x2D
  }

  /** One byte as it appears in the query that is sent. */
  function Printed(b: Byte): Bytes {
    if Unreserved(b) && b != QUOTE then [b] else Escape(b)
  }

  function PrintedAll(value: Bytes): Bytes {
    if value == [] then [] else Printed(value[0]) + PrintedAll(value[1..])
  }

  lemma {:induction false} SpecialConcat(a: Bytes, b: Bytes)
    ensures SpecialQuery(a + b) == SpecialQuery(a) + SpecialQuery(b)
  {
    if a == [] {
      assert a + b == b;
    } else {
      assert (a + b)[1..] == a[1..] + b;
      SpecialConcat(a[1..], b);
    }
  }

  lemma SpecialOfEscape(b: Byte)
    ensures SpecialQuery(Escape(b)) == Escape(b)
  {
    var e := Escape(b);
    assert e[1..][1..][1..] == [];
    assert SpecialQuery(e[1..][1..]) == [e[2]];
    assert SpecialQuery(e[1..]) == [e[1], e[2]];
  }

  lemma SpecialOne(b: Byte)
    ensures SpecialQuery([b]) == if InSpecialQuerySet(b) then Escape(b) else [b]
  {
    assert [b][1..] == [];
  }

  /** The URL parser changes nothing in an encoded value but the apostrophe. */
  lemma {:induction false} PrintedValue(value: Bytes)
    ensures SpecialQuery(EncodeComponent(value)) == PrintedAll(value)
  {
    if value == [] {
    } else {
      var b, head := value[0], if Unreserved(value[0]) then [value[0]] else Escape(value[0]);
      SpecialConcat(head, EncodeComponent(value[1..]));
      SpecialOfEscape(b);
      SpecialOne(b);
      PrintedValue(value[1..]);
    }
  }

  lemma DecodePrinted(b: Byte, rest: Bytes)
    ensures Decode(Printed(b) + rest) == [b] + Decode(rest)
  {
  }

  /** Decoding gives every value back. */
  lemma {:induction false} DecodeValue(value: Bytes)
    ensures Decode(PrintedAll(value)) == value
  {
    if value == [] {
    } else {
      DecodePrinted(value[0], PrintedAll(value[1..]));
      DecodeValue(value[1..]);
    }
  }

  lemma {:induction false} NoSeparator(value: Bytes)
    ensures AMP !in PrintedAll(value)
  {
    if value == [] {
    } else {
      NoSeparator(value[1..]);
    }
  }

  lemma {:induction false} TokenPrinted(token: Bytes)
    requires Uuid(token)
    ensures SpecialQuery(token) == token == PrintedAll(token)
  {
    if token == [] {
    } else {
      assert forall b :: b in token[1..] ==> b in token;
      TokenPrinted(token[1..]);
      var b := token[0];
      assert b in token;
      SpecialOne(b);
      assert token == [b] + token[1..] && Printed(b) == [b];
    }
  }

  lemma {:induction false} FindIn(a: Bytes, c: Byte, rest: Bytes)
    requires c !in a
    ensures rest != [] && rest[0] == c ==> Find(a + rest, c) == |a|
    ensures rest == [] ==> Find(a + rest, c) == |a|
  {
    if a == [] {
      assert a + rest == rest;
    } else {
      assert (a + rest)[1..] == a[1..] + rest;
      FindIn(a[1..], c, rest);
    }
  }

  /** Parsing behind the first separator of some fields and what follows them. */
  function ParseBehind(s: Bytes): seq<Pair>
    requires s == [] || s[0] == AMP
  {
    if s == [] then [] else Parse(s[1..])
  }

  /** A printed field is parsed as its key and its value. */
  lemma FieldParsed(key: Byte, value: Bytes)
    requires key in {T, P, U, N, V}
    ensures ParseField([key, EQ] + PrintedAll(value)) == ([key], value)
  {
    var field := [key, EQ] + PrintedAll(value);
    FindIn([key], EQ, [EQ] + PrintedAll(value));
    assert [key] + ([EQ] + PrintedAll(value)) == field;
    assert field[..1] == [key] && field[2..] == PrintedAll(value);
    DecodeValue(value);
    DecodeKey(key);
  }

  /** A field `k=value` in front of further fields, or of the end. */
  lemma ParseFront(key: Byte, value: Bytes, rest: Bytes)
    requires key in {T, P, U, N, V}
    requires rest == [] || rest[0] == AMP
    ensures Parse([key, EQ] + PrintedAll(value) + rest) ==
            [([key], value)] + ParseBehind(rest)
  {
    var field := [key, EQ] + PrintedAll(value);
    NoSeparator(value);
    FindIn(field, AMP, rest);
    FieldParsed(key, value);
    var q := field + rest;
    assert q[..|field|] == field && q[|field|..] == rest;
    if rest != [] { assert q[|field| + 1..] == rest[1..]; }
  }

  lemma DecodeKey(key: Byte)
    requires key in {T, P, U, N, V}
    ensures Decode([key]) == [key]
  {
    assert [key][1..] == [];
  }

  /** The fields as they are sent. */
  function SentFields(key: Byte, values: seq<Bytes>): Bytes {
    if values == [] then []
    else [AMP] + ([key, EQ] + PrintedAll(values[0])) + SentFields(key, values[1..])
  }

  /** One field on its way through the browser's URL printer. */
  lemma FieldPrinted(key: Byte, value: Bytes)
    requires key in {T, P, U, N, V}
    ensures SpecialQuery([AMP, key, EQ] + EncodeComponent(value)) == [AMP] + ([key, EQ] + PrintedAll(value))
  {
    HeadPrinted(key);
    SpecialConcat([AMP, key, EQ], EncodeComponent(value));
    PrintedValue(value);
    assert [AMP, key, EQ] + PrintedAll(value) == [AMP] + ([key, EQ] + PrintedAll(value));
  }

  lemma HeadPrinted(key: Byte)
    requires key in {T, P, U, N, V}
    ensures SpecialQuery([AMP, key, EQ]) == [AMP, key, EQ]
  {
    SpecialConcat([AMP, key], [EQ]);
    SpecialConcat([AMP], [key]);
    assert [AMP] + [key] == [AMP, key] && [AMP, key] + [EQ] == [AMP, key, EQ];
    SpecialOne(AMP);
    SpecialOne(key);
    SpecialOne(EQ);
  }

  lemma {:induction false} FieldsPrinted(key: Byte, values: seq<Bytes>)
    requires key in {T, P, U, N, V}
    ensures SpecialQuery(Fields(key, values)) == SentFields(key, values)
  {
    if values == [] {
    } else {
      FieldPrinted(key, values[0]);
      SpecialConcat([AMP, key, EQ] + EncodeComponent(values[0]), Fields(key, values[1..]));
      FieldsPrinted(key, values[1..]);
    }
  }

  function PairsOf(key: Byte, values: seq<Bytes>): seq<Pair> {
    seq(|values|, i requires 0 <= i < |values| => ([key], values[i]))
  }

  /** Fields start with a separator. */
  lemma SentFront(key: Byte, values: seq<Bytes>, rest: Bytes)
    requires rest == [] || rest[0] == AMP
    ensures var s := SentFields(key, values) + rest; s == [] || s[0] == AMP
  {
    if values == [] { assert SentFields(key, values) + rest == rest; }
  }

  lemma {:induction false} ParseFields(key: Byte, values: seq<Bytes>, rest: Bytes, s: Bytes)
    requires key in {T, P, U, N, V}
    requires rest == [] || rest[0] == AMP
    requires s == SentFields(key, values) + rest && (s == [] || s[0] == AMP)
    ensures ParseBehind(s) == PairsOf(key, values) + ParseBehind(rest)
  {
    if values == [] {
      assert s == rest;
    } else {
      var more := SentFields(key, values[1..]);
      SentFront(key, values[1..], rest);
      ParseFields(key, values[1..], rest, more + rest);
      Associate([AMP] + ([key, EQ] + PrintedAll(values[0])), more, rest);
      ParseOne(key, values[0], more + rest, s);
      PairsCons(key, values);
      Associate([([key], values[0])], PairsOf(key, values[1..]), ParseBehind(rest));
    }
  }

  lemma PairsCons(key: Byte, values: seq<Bytes>)
    requires values != []
    ensures PairsOf(key, values) == [([key], values[0])] + PairsOf(key, values[1..])
  {
  }

  lemma DropFirst(a: Byte, x: Bytes, y: Bytes)
    ensures ([a] + x + y)[1..] == x + y && ([a] + x + y)[0] == a
  {
  }

  lemma ParseOne(key: Byte, value: Bytes, tail: Bytes, s: Bytes)
    requires key in {T, P, U, N, V}
    requires tail == [] || tail[0] == AMP
    requires s == [AMP] + ([key, EQ] + PrintedAll(value)) + tail
    ensures s[0] == AMP && ParseBehind(s) == [([key], value)] + ParseBehind(tail)
  {
    DropFirst(AMP, [key, EQ] + PrintedAll(value), tail);
    ParseFront(key, value, tail);
  }

  lemma {:induction false} ValuesOf(key: Byte, values: seq<Bytes>, other: Byte)
    ensures Values(PairsOf(key, values), other) == if key == other then values else []
  {
    var n := |values|;
    if n == 0 {
    } else {
      var front := values[..n - 1];
      assert PairsOf(key, values)[..n - 1] == PairsOf(key, front);
      ValuesOf(key, front, other);
      if key == other { assert values == front + [values[n - 1]]; }
    }
  }

  lemma {:induction false} ValuesConcat(a: seq<Pair>, b: seq<Pair>, key: Byte)
    ensures Values(a + b, key) == Values(a, key) + Values(b, key)
  {
    if b == [] {
      assert a + b == a;
    } else {
      assert (a + b)[..|a + b| - 1] == a + b[..|b| - 1];
      ValuesConcat(a, b[..|b| - 1], key);
    }
  }

  /** How a query with the token and two groups of fields is sent. */
  lemma SentQuery(token: Bytes, k: Byte, ks: seq<Bytes>, l: Byte, ls: seq<Bytes>)
    requires Uuid(token) && k in {T, P, U, N, V} && l in {T, P, U, N, V}
    ensures SpecialQuery([T, EQ] + token + Fields(k, ks) + Fields(l, ls)) ==
            [T, EQ] + PrintedAll(token) + (SentFields(k, ks) + SentFields(l, ls))
  {
    SpecialOfFour([T, EQ], token, Fields(k, ks), Fields(l, ls));
    TokenStart();
    TokenPrinted(token);
    FieldsPrinted(k, ks);
    FieldsPrinted(l, ls);
  }

  lemma SpecialOfThree(a: Bytes, b: Bytes, c: Bytes)
    ensures SpecialQuery(a + b + c) == SpecialQuery(a) + SpecialQuery(b) + SpecialQuery(c)
  {
    SpecialConcat(a + b, c);
    SpecialConcat(a, b);
  }

  lemma Associate<X>(a: seq<X>, b: seq<X>, c: seq<X>)
    ensures a + b + c == a + (b + c)
  {
  }

  lemma SpecialOfFour(a: Bytes, b: Bytes, c: Bytes, d: Bytes)
    ensures SpecialQuery(a + b + c + d) == SpecialQuery(a) + SpecialQuery(b) + (SpecialQuery(c) + SpecialQuery(d))
  {
    SpecialConcat(a + b + c, d);
    SpecialOfThree(a, b, c);
    Associate(SpecialQuery(a) + SpecialQuery(b), SpecialQuery(c), SpecialQuery(d));
  }

  lemma TokenStart()
    ensures SpecialQuery([T, EQ]) == [T, EQ]
  {
    SpecialConcat([T], [EQ]);
    assert [T] + [EQ] == [T, EQ];
    SpecialOne(T);
    SpecialOne(EQ);
  }

  /** How such a query is parsed. */
  lemma ParseQuery(token: Bytes, k: Byte, ks: seq<Bytes>, l: Byte, ls: seq<Bytes>)
    requires Uuid(token) && k in {T, P, U, N, V} && l in {T, P, U, N, V}
    ensures Parse(SpecialQuery([T, EQ] + token + Fields(k, ks) + Fields(l, ls))) ==
            [([T], token)] + (PairsOf(k, ks) + PairsOf(l, ls))
  {
    SentQuery(token, k, ks, l, ls);
    var last := SentFields(l, ls);
    var rest := SentFields(k, ks) + last;
    assert last == SentFields(l, ls) + [];
    SentFront(l, ls, []);
    ParseFields(l, ls, [], last);
    SentFront(k, ks, last);
    ParseFields(k, ks, last, rest);
    ParseFront(T, token, rest);
    assert PairsOf(l, ls) + [] == PairsOf(l, ls);
  }

  lemma DispatchQuery(token: Bytes, k: Byte, ks: seq<Bytes>, l: Byte, ls: seq<Bytes>, peers: set<Bytes>)
    ensures Dispatch([([T], token)] + (PairsOf(k, ks) + PairsOf(l, ls)), peers) ==
            if token in peers then Choose(PairsOf(k, ks) + PairsOf(l, ls)) else AuthFailed
    ensures forall key :: Values(PairsOf(k, ks) + PairsOf(l, ls), key) ==
                          (if key == k then ks else []) + (if key == l then ls else [])
  {
    var pairs := PairsOf(k, ks) + PairsOf(l, ls);
    assert ([([T], token)] + pairs)[1..] == pairs;
    forall key
      ensures Values(pairs, key) == (if key == k then ks else []) + (if key == l then ls else [])
    {
      ValuesConcat(PairsOf(k, ks), PairsOf(l, ls), key);
      ValuesOf(k, ks, key);
      ValuesOf(l, ls, key);
    }
  }

  /** Upload round trip: the handler gets exactly the destination, in order, and the file name,
      as long as the destination has a component. */
  lemma UploadRoundTrip(token: Bytes, dest: seq<Bytes>, filename: Option<Bytes>, peers: set<Bytes>)
    requires Uuid(token)
    ensures Dispatch(Parse(SpecialQuery(UploadQuery(token, dest, filename))), peers) ==
            if token !in peers then AuthFailed else if dest == [] then UnknownRequest else Upload(dest, filename)
  {
    var names := if filename.Some? then [filename.value] else [];
    ParseQuery(token, U, dest, N, names);
    DispatchQuery(token, U, dest, N, names, peers);
    ChooseUpload(PairsOf(U, dest) + PairsOf(N, names), dest, filename);
  }

  lemma ChooseUpload(pairs: seq<Pair>, dest: seq<Bytes>, filename: Option<Bytes>)
    requires Values(pairs, P) == [] && Values(pairs, V) == [] && Values(pairs, U) == dest
    requires Values(pairs, N) == if filename.Some? then [filename.value] else []
    ensures Choose(pairs) == if dest == [] then UnknownRequest else Upload(dest, filename)
  {
  }

  /** Download round trip, for one file or several. */
  lemma DownloadRoundTrip(token: Bytes, files: seq<Bytes>, peers: set<Bytes>)
    requires Uuid(token)
    ensures Dispatch(Parse(SpecialQuery(DownloadQuery(token, files))), peers) ==
            if token !in peers then AuthFailed else if files == [] then UnknownRequest else Download(files)
  {
    assert DownloadQuery(token, files) == [T, EQ] + token + Fields(P, files) + Fields(N, []);
    ParseQuery(token, P, files, N, []);
    DispatchQuery(token, P, files, N, [], peers);
    var pairs := PairsOf(P, files) + PairsOf(N, []);
    assert Values(pairs, P) == files && Values(pairs, U) == [] && Values(pairs, V) == [];
  }

  /** Preview round trip. */
  lemma PreviewRoundTrip(token: Bytes, path: Bytes, peers: set<Bytes>)
    requires Uuid(token)
    ensures Dispatch(Parse(SpecialQuery(PreviewQuery(token, path))), peers) ==
            if token !in peers then AuthFailed else Preview(path)
  {
    assert PreviewQuery(token, path) == [T, EQ] + token + Fields(V, [path]) + Fields(N, []);
    ParseQuery(token, V, [path], N, []);
    DispatchQuery(token, V, [path], N, [], peers);
    var pairs := PairsOf(V, [path]) + PairsOf(N, []);
    assert Values(pairs, P) == [] && Values(pairs, U) == [] && Values(pairs, V) == [path];
  }
}
