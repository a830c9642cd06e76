/**
The chunked stream codec.  A stream is an 8-byte nonce prefix followed by the plaintext
in chunks of 64 KiB, each sealed on its own under a nonce made of the prefix and a 32-bit
chunk counter.  The cipher is a parameter: only what the codec relies on is assumed of it.
*/
module Codec {
  import opened Wrappers

  newtype byte = x: int | 0 <= x < 0x100
  newtype uint32 = x: int | 0 <= x < 0x1_0000_0000

  const CHUNK := 65536
  const TAG := 16
  const SEALED := 65552
  const PREFIX := 8
  const NONCE := 12
  const COUNTERS := 0x1_0000_0000
  const LIMIT := 0x1_0000_0000_0000

  /** An authenticated cipher under one key: both functions take the nonce first. */
  datatype Aead = Aead(
    seal: (seq<byte>, seq<byte>) -> seq<byte>,
    open: (seq<byte>, seq<byte>) -> Option<seq<byte>>)

  ghost predicate Sized(a: Aead) {
    forall n, x :: |a.seal(n, x)| == |x| + TAG
  }

  ghost predicate Opens(a: Aead) {
    forall n, x :: a.open(n, a.seal(n, x)) == Some(x)
  }

  // ---------------------------------------------------------------- the format

  function BigEndian(w: uint32): (r: seq<byte>)
    ensures |r| == 4
  {
    [(w / 0x100_0000) as byte, (w / 0x1_0000 % 0x100) as byte, (w / 0x100 % 0x100) as byte, (w % 0x100) as byte]
  }

  /** The counter of chunk k wraps at 2^32. */
  function Counter(k: nat): uint32 {
    (k % COUNTERS) as uint32
  }

  function Nonce(p: seq<byte>, k: nat): seq<byte> {
    p + BigEndian(Counter(k))
  }

  /** The plaintext pieces sealed from chunk k on: an empty piece only where the counter reads zero. */
  function Chunks(data: seq<byte>, k: nat): seq<seq<byte>>
    decreases |data|
  {
    if |data| >= CHUNK then [data[..CHUNK]] + Chunks(data[CHUNK..], k + 1)
    else if |data| > 0 || Counter(k) == 0 then [data]
    else []
  }

  function SealAll(a: Aead, p: seq<byte>, chunks: seq<seq<byte>>, k: nat): seq<byte>
    decreases |chunks|
  {
    if chunks == [] then [] else a.seal(Nonce(p, k), chunks[0]) + SealAll(a, p, chunks[1..], k + 1)
  }

  function Body(a: Aead, p: seq<byte>, data: seq<byte>, k: nat): seq<byte> {
    SealAll(a, p, Chunks(data, k), k)
  }

  function Stream(a: Aead, p: seq<byte>, data: seq<byte>): seq<byte> {
    p + Body(a, p, data, 0)
  }

  /** The plaintext written for the sealed bytes c, and whether the end was clean. */
  function OpenAll(a: Aead, p: seq<byte>, c: seq<byte>, k: nat): (seq<byte>, bool)
    decreases |c|
  {
    if c == [] then ([], true)
    else
      var m := if |c| < SEALED then |c| else SEALED;
      match a.open(Nonce(p, k), c[..m])
      case None => ([], false)
      case Some(x) =>
        var rest := OpenAll(a, p, c[m..], k + 1);
        (x + rest.0, rest.1)
  }

  function Read(a: Aead, stream: seq<byte>): (seq<byte>, bool) {
    if |stream| < PREFIX then ([], false) else OpenAll(a, stream[..PREFIX], stream[PREFIX..], 0)
  }

  /** What one turn of the encryption loop writes, with `data` still to be read. */
  function Piece(a: Aead, p: seq<byte>, data: seq<byte>, k: nat): seq<byte> {
    var n := if |data| < CHUNK then |data| else CHUNK;
    if n > 0 || Counter(k) == 0 then a.seal(Nonce(p, k), data[..n]) else []
  }

  lemma BodyStep(a: Aead, p: seq<byte>, data: seq<byte>, k: nat)
    ensures |data| >= CHUNK ==> Body(a, p, data, k) == Piece(a, p, data, k) + Body(a, p, data[CHUNK..], k + 1)
    ensures |data| < CHUNK ==> Body(a, p, data, k) == Piece(a, p, data, k)
  {
    if |data| >= CHUNK {
      assert Chunks(data, k)[1..] == Chunks(data[CHUNK..], k + 1);
    } else if |data| > 0 || Counter(k) == 0 {
      assert data[..|data|] == data;
      assert Chunks(data, k) == [data] && [data][1..] == [];
      assert SealAll(a, p, [data][1..], k + 1) == [];
      assert a.seal(Nonce(p, k), data) + [] == a.seal(Nonce(p, k), data);
    }
  }

  lemma {:induction false} ChunksJoin(data: seq<byte>, k: nat)
    ensures Concat(Chunks(data, k)) == data
    ensures forall j :: 0 <= j < |Chunks(data, k)| ==> |Chunks(data, k)[j]| <= 65536
    ensures forall j :: 0 <= j < |Chunks(data, k)| - 1 ==> |Chunks(data, k)[j]| == 65536
    decreases |data|
  {
    if |data| >= CHUNK {
      ChunksJoin(data[CHUNK..], k + 1);
      assert Chunks(data, k)[1..] == Chunks(data[CHUNK..], k + 1);
    } else if |data| > 0 || Counter(k) == 0 {
      assert Chunks(data, k)[1..] == [];
    }
  }

  // ---------------------------------------------------------------- round trip

  lemma {:induction false} OpenSealed(a: Aead, p: seq<byte>, data: seq<byte>, k: nat)
    requires Sized(a) && Opens(a)
    ensures OpenAll(a, p, Body(a, p, data, k), k) == (data, true)
    decreases |data|
  {
    BodyStep(a, p, data, k);
    var c := Body(a, p, data, k);
    if |data| >= CHUNK {
      var s := a.seal(Nonce(p, k), data[..CHUNK]);
      OpenSealed(a, p, data[CHUNK..], k + 1);
      assert c[..SEALED] == s && c[SEALED..] == Body(a, p, data[CHUNK..], k + 1);
      assert data[..CHUNK] + data[CHUNK..] == data;
    } else if |data| > 0 || Counter(k) == 0 {
      assert c[..|c|] == c && c[|c|..] == [];
      assert data + [] == data;
    }
  }

  /** Every plaintext is read back exactly, empty, chunk-aligned and counter-wrapping ones included. */
  lemma RoundTrip(a: Aead, p: seq<byte>, data: seq<byte>)
    requires Sized(a) && Opens(a) && |p| == PREFIX
    ensures Read(a, Stream(a, p, data)) == (data, true)
  {
    OpenSealed(a, p, data, 0);
    var s := Stream(a, p, data);
    assert s[..PREFIX] == p && s[PREFIX..] == Body(a, p, data, 0);
  }

  // ---------------------------------------------------------------- truncation

  /** Under nonce n, opening yields x for the sealed form of x and rejects everything else. */
  ghost predicate OpensOnly(a: Aead, n: seq<byte>, x: seq<byte>) {
    forall c :: a.open(n, c) == if c == a.seal(n, x) then Some(x) else None
  }

  ghost predicate Authentic(a: Aead, p: seq<byte>, chunks: seq<seq<byte>>, k: nat) {
    forall j :: 0 <= j < |chunks| ==> OpensOnly(a, Nonce(p, k + j), chunks[j])
  }

  lemma AuthenticTail(a: Aead, p: seq<byte>, chunks: seq<seq<byte>>, k: nat)
    requires Authentic(a, p, chunks, k) && chunks != []
    ensures OpensOnly(a, Nonce(p, k), chunks[0]) && Authentic(a, p, chunks[1..], k + 1)
  {
    assert k + 0 == k && OpensOnly(a, Nonce(p, k + 0), chunks[0]);
    forall j | 0 <= j < |chunks[1..]|
      ensures OpensOnly(a, Nonce(p, k + 1 + j), chunks[1..][j])
    {
      assert k + 1 + j == k + (1 + j) && chunks[1..][j] == chunks[1 + j];
    }
  }

  lemma {:induction false} TruncatedBody(a: Aead, p: seq<byte>, data: seq<byte>, k: nat, t: nat)
    requires Sized(a) && Authentic(a, p, Chunks(data, k), k) && t < |Body(a, p, data, k)|
    ensures t / SEALED * CHUNK <= |data|
    ensures OpenAll(a, p, Body(a, p, data, k)[..t], k) == (data[..t / SEALED * CHUNK], t % SEALED == 0)
    decreases |data|
  {
    BodyStep(a, p, data, k);
    var c := Body(a, p, data, k);
    var chunks := Chunks(data, k);
    assert chunks != [];
    var sealed := a.seal(Nonce(p, k), chunks[0]);
    AuthenticTail(a, p, chunks, k);
    if t < SEALED {
      TruncatedChunk(a, p, data, k, t);
    } else {
      var rest := data[CHUNK..];
      assert chunks[1..] == Chunks(rest, k + 1);
      TruncatedBody(a, p, rest, k + 1, t - SEALED);
      var tail := Body(a, p, rest, k + 1)[..t - SEALED];
      assert c == sealed + Body(a, p, rest, k + 1);
      assert c[..t][..SEALED] == sealed && c[..t][SEALED..] == tail;
      OneChunkMore(data, t);
    }
  }

  lemma OneChunkMore(data: seq<byte>, t: nat)
    requires |data| >= CHUNK && t >= SEALED && (t - SEALED) / SEALED * CHUNK <= |data[CHUNK..]|
    ensures t % SEALED == (t - SEALED) % SEALED && t / SEALED * CHUNK <= |data|
    ensures data[..CHUNK] + data[CHUNK..][..(t - SEALED) / SEALED * CHUNK] == data[..t / SEALED * CHUNK]
  {
    assert t / SEALED == (t - SEALED) / SEALED + 1;
  }

  lemma TruncatedChunk(a: Aead, p: seq<byte>, data: seq<byte>, k: nat, t: nat)
    requires Sized(a) && Authentic(a, p, Chunks(data, k), k) && t < |Body(a, p, data, k)| && t < SEALED
    ensures OpenAll(a, p, Body(a, p, data, k)[..t], k) == ([], t == 0)
  {
    BodyStep(a, p, data, k);
    var c := Body(a, p, data, k)[..t];
    var sealed := a.seal(Nonce(p, k), Chunks(data, k)[0]);
    if t > 0 {
      AuthenticTail(a, p, Chunks(data, k), k);
      assert c[..|c|] == c && |c| < |sealed|;
    }
  }

  /**
  A stream cut at any byte yields the chunks before the cut, and an error exactly when the
  cut falls inside the nonce prefix or inside a sealed chunk.
  */
  lemma Truncated(a: Aead, p: seq<byte>, data: seq<byte>, t: nat)
    requires Sized(a) && Authentic(a, p, Chunks(data, 0), 0) && |p| == PREFIX && t < |Stream(a, p, data)|
    ensures t < PREFIX ==> Read(a, Stream(a, p, data)[..t]) == ([], false)
    ensures t >= PREFIX ==>
      var whole := (t - PREFIX) / SEALED;
      && whole * CHUNK <= |data|
      && Read(a, Stream(a, p, data)[..t]) == (data[..whole * CHUNK], (t - PREFIX) % SEALED == 0)
  {
    if t >= PREFIX {
      TruncatedBody(a, p, data, 0, t - PREFIX);
      var s := Stream(a, p, data)[..t];
      assert s[..PREFIX] == p && s[PREFIX..] == Body(a, p, data, 0)[..t - PREFIX];
    }
  }

  // ---------------------------------------------------------------- tampering

  /** Under nonce n nothing opens. */
  ghost predicate OpensNone(a: Aead, n: seq<byte>) {
    forall c :: a.open(n, c) == None
  }

  /** Each nonce of the stream opens its own chunk only, and the nonces it does not use open nothing. */
  ghost predicate Genuine(a: Aead, p: seq<byte>, chunks: seq<seq<byte>>) {
    && |chunks| <= COUNTERS
    && (forall j :: 0 <= j < |chunks| ==> OpensOnly(a, Nonce(p, j), chunks[j]))
    && (forall j :: |chunks| <= j < COUNTERS ==> OpensNone(a, Nonce(p, j)))
  }

  /** All but the last of the chunks are full, and the last is short if the counter is used up. */
  ghost predicate Framed(chunks: seq<seq<byte>>) {
    && (forall j :: 0 <= j < |chunks| - 1 ==> |chunks[j]| == CHUNK)
    && (chunks != [] ==> |chunks[|chunks| - 1]| <= CHUNK)
    && (|chunks| == COUNTERS ==> |chunks[|chunks| - 1]| < CHUNK)
  }

  lemma ChunksFramed(data: seq<byte>)
    requires |data| < LIMIT
    ensures Framed(Chunks(data, 0))
  {
    ChunksJoin(data, 0);
    ChunkCount(data, 0);
    var chunks := Chunks(data, 0);
    if |chunks| == COUNTERS {
      FullLength(chunks);
    }
  }

  lemma {:induction false} FullLength(chunks: seq<seq<byte>>)
    ensures (forall j :: 0 <= j < |chunks| ==> |chunks[j]| == CHUNK) ==> |Concat(chunks)| == |chunks| * CHUNK
  {
    if chunks != [] {
      FullLength(chunks[1..]);
    }
  }

  /**
  Whatever bytes follow the nonce prefix, leading chunks come out, and a clean end means the
  bytes are just those, sealed.
  */
  lemma {:induction false} OnlyLeading(a: Aead, p: seq<byte>, chunks: seq<seq<byte>>, c: seq<byte>, k: nat)
    returns (m: nat)
    requires Sized(a) && Genuine(a, p, chunks) && Framed(chunks) && k <= |chunks| && (k == COUNTERS ==> c == [])
    ensures k <= m <= |chunks| && OpenAll(a, p, c, k).0 == Concat(chunks[k..m])
    ensures OpenAll(a, p, c, k).1 ==> c == SealAll(a, p, chunks[k..m], k)
    decreases |c|
  {
    m := k;
    assert chunks[k..k] == [];
    if c != [] {
      var n := if |c| < SEALED then |c| else SEALED;
      if k == |chunks| {
        assert OpensNone(a, Nonce(p, k));
      } else if a.open(Nonce(p, k), c[..n]).Some? {
        assert OpensOnly(a, Nonce(p, k), chunks[k]);
        assert c[..n] == a.seal(Nonce(p, k), chunks[k]);
        m := OnlyLeading(a, p, chunks, c[n..], k + 1);
        assert chunks[k..m][0] == chunks[k] && chunks[k..m][1..] == chunks[k + 1..m];
        assert c == c[..n] + c[n..];
      } else {
        assert a.open(Nonce(p, k), c[..n]).None?;
      }
    }
  }

  lemma {:induction false} OpenSealAll(a: Aead, p: seq<byte>, chunks: seq<seq<byte>>, k: nat)
    requires Sized(a) && Authentic(a, p, chunks, k)
    requires forall j :: 0 <= j < |chunks| - 1 ==> |chunks[j]| == CHUNK
    requires chunks != [] ==> |chunks[|chunks| - 1]| <= CHUNK
    ensures OpenAll(a, p, SealAll(a, p, chunks, k), k) == (Concat(chunks), true)
    decreases |chunks|
  {
    if chunks != [] {
      AuthenticTail(a, p, chunks, k);
      OpenSealAll(a, p, chunks[1..], k + 1);
      var s := a.seal(Nonce(p, k), chunks[0]);
      var c := SealAll(a, p, chunks, k);
      var n := if |c| < SEALED then |c| else SEALED;
      assert |chunks| == 1 ==> SealAll(a, p, chunks[1..], k + 1) == [];
      assert c[..n] == s && c[n..] == SealAll(a, p, chunks[1..], k + 1);
    }
  }

  /**
  Whatever a stream's sealed bytes are replaced by, cut, reordered, duplicated or altered,
  what is written is a prefix of the plaintext made of whole chunks, and the end is clean
  exactly when the bytes are the leading sealed chunks, in order.
  */
  lemma Tampered(a: Aead, p: seq<byte>, data: seq<byte>, c: seq<byte>) returns (m: nat)
    requires Sized(a) && Genuine(a, p, Chunks(data, 0)) && |data| < LIMIT
    ensures m <= |Chunks(data, 0)| && OpenAll(a, p, c, 0).0 == Concat(Chunks(data, 0)[..m]) <= data
    ensures OpenAll(a, p, c, 0).1 <==> c == SealAll(a, p, Chunks(data, 0)[..m], 0)
    ensures OpenAll(a, p, c, 0).1 <==>
      exists l: nat :: l <= |Chunks(data, 0)| && c == SealAll(a, p, Chunks(data, 0)[..l], 0)
  {
    var chunks := Chunks(data, 0);
    ChunksFramed(data);
    m := OnlyLeading(a, p, chunks, c, 0);
    ChunksJoin(data, 0);
    ConcatPrefix(chunks, m);
    forall l: nat | l <= |chunks| && c == SealAll(a, p, chunks[..l], 0) ensures OpenAll(a, p, c, 0).1 {
      forall j | 0 <= j < l ensures OpensOnly(a, Nonce(p, 0 + j), chunks[..l][j]) {
        assert OpensOnly(a, Nonce(p, j), chunks[j]);
      }
      OpenSealAll(a, p, chunks[..l], 0);
    }
    assert chunks[0..m] == chunks[..m];
  }

  lemma {:induction false} ConcatPrefix(chunks: seq<seq<byte>>, m: nat)
    requires m <= |chunks|
    ensures Concat(chunks[..m]) <= Concat(chunks)
  {
    if m > 0 {
      ConcatPrefix(chunks[1..], m - 1);
      assert chunks[..m][1..] == chunks[1..][..m - 1];
    }
  }

  // ---------------------------------------------------------------- nonces

  function FromBigEndian(b: seq<byte>): int
    requires |b| == 4
  {
    b[0] as int * 0x100_0000 + b[1] as int * 0x1_0000 + b[2] as int * 0x100 + b[3] as int
  }

  lemma BigEndianInverse(w: uint32)
    ensures FromBigEndian(BigEndian(w)) == w as int
  {
    var x := w as int;
    assert x == x / 0x100 * 0x100 + x % 0x100;
    assert x / 0x100 == x / 0x1_0000 * 0x100 + x / 0x100 % 0x100;
    assert x / 0x1_0000 == x / 0x100_0000 * 0x100 + x / 0x1_0000 % 0x100;
  }

  lemma NonceEquality(p: seq<byte>, j: nat, k: nat)
    ensures Nonce(p, j) == Nonce(p, k) <==> j % COUNTERS == k % COUNTERS
  {
    BigEndianInverse(Counter(j));
    BigEndianInverse(Counter(k));
    assert Nonce(p, j)[|p|..] == BigEndian(Counter(j)) && Nonce(p, k)[|p|..] == BigEndian(Counter(k));
  }

  lemma {:induction false} ChunkCount(data: seq<byte>, k: nat)
    ensures |Chunks(data, k)| ==
      |data| / CHUNK + if |data| % CHUNK > 0 || (k + |data| / CHUNK) % COUNTERS == 0 then 1 else 0
    decreases |data|
  {
    if |data| >= CHUNK {
      ChunkCount(data[CHUNK..], k + 1);
      assert (|data| - CHUNK) / CHUNK == |data| / CHUNK - 1 && (|data| - CHUNK) % CHUNK == |data| % CHUNK;
    }
  }

  /** The chunk nonces of a stream are all distinct exactly for plaintexts under 2^48 bytes. */
  lemma NoncesDistinct(p: seq<byte>, data: seq<byte>)
    ensures (forall j: nat, k: nat :: j < k < |Chunks(data, 0)| ==> Nonce(p, j) != Nonce(p, k)) <==>
      |data| < 0x1_0000_0000_0000
  {
    ChunksCounted(data);
    if |Chunks(data, 0)| <= COUNTERS {
      forall j: nat, k: nat | j < k < |Chunks(data, 0)| ensures Nonce(p, j) != Nonce(p, k) {
        NonceEquality(p, j, k);
        assert j % COUNTERS == j && k % COUNTERS == k;
      }
    } else {
      NonceEquality(p, 0, COUNTERS);
    }
  }

  lemma ChunksCounted(data: seq<byte>)
    ensures |data| < LIMIT <==> |Chunks(data, 0)| <= COUNTERS
  {
    ChunkCount(data, 0);
  }

  /** At exactly 2^48 bytes an empty chunk is sealed once more under the nonce of chunk zero. */
  lemma WrapSealsAnEmptyChunk(p: seq<byte>, data: seq<byte>)
    requires |data| == LIMIT
    ensures |Chunks(data, 0)| == COUNTERS + 1 && Chunks(data, 0)[COUNTERS] == []
    ensures Nonce(p, COUNTERS) == Nonce(p, 0)
  {
    ChunkCount(data, 0);
    NonceEquality(p, 0, COUNTERS);
    ChunksJoin(data, 0);
    LastChunk(data, 0);
  }

  lemma {:induction false} LastChunk(data: seq<byte>, k: nat)
    requires |data| % CHUNK == 0 && (k + |data| / CHUNK) % COUNTERS == 0
    ensures var chunks := Chunks(data, k); |chunks| > 0 && chunks[|chunks| - 1] == []
    decreases |data|
  {
    if |data| >= CHUNK {
      assert (|data| - CHUNK) / CHUNK == |data| / CHUNK - 1 && (|data| - CHUNK) % CHUNK == 0;
      LastChunk(data[CHUNK..], k + 1);
    }
  }

  /** Some cipher meets what truncation and tampering theorems assume, for any plaintext under 2^48 bytes. */
  lemma AuthenticCipherExists(p: seq<byte>, data: seq<byte>) returns (a: Aead)
    requires |data| < LIMIT
    ensures Sized(a) && Authentic(a, p, Chunks(data, 0), 0) && Genuine(a, p, Chunks(data, 0))
  {
    var chunks := Chunks(data, 0);
    var tag := seq(TAG, i => 0 as byte);
    a := Aead((n, x) => x + tag,
              (n: seq<byte>, c) =>
                if |n| == |p| + 4 && n[..|p|] == p && 0 <= FromBigEndian(n[|p|..]) < |chunks|
                   && c == chunks[FromBigEndian(n[|p|..])] + tag
                then Some(chunks[FromBigEndian(n[|p|..])]) else None);
    ChunkCount(data, 0);
    forall j | 0 <= j < COUNTERS
      ensures if j < |chunks| then OpensOnly(a, Nonce(p, j), chunks[j]) else OpensNone(a, Nonce(p, j))
    {
      BigEndianInverse(Counter(j));
      assert Nonce(p, j)[..|p|] == p && Nonce(p, j)[|p|..] == BigEndian(Counter(j));
    }
    AuthenticIfGenuine(a, p, chunks);
  }

  // ---------------------------------------------------------------- sizes

  function EncryptedSize(plainSize: int): int {
    if plainSize < 0 then -1
    else
      var fullChunks := plainSize / CHUNK;
      var lastPlain := plainSize % CHUNK;
      var size := Wrap64(PREFIX + Wrap64(fullChunks * SEALED));
      if plainSize == 0 || lastPlain > 0 then Wrap64(size + Wrap64(lastPlain + TAG)) else size
  }

  lemma {:induction false} BodyLength(a: Aead, p: seq<byte>, data: seq<byte>, k: nat)
    requires Sized(a)
    ensures |Body(a, p, data, k)| == |data| / CHUNK * SEALED +
      if |data| % CHUNK > 0 || (k + |data| / CHUNK) % COUNTERS == 0 then |data| % CHUNK + TAG else 0
    decreases |data|
  {
    BodyStep(a, p, data, k);
    if |data| >= CHUNK {
      BodyLength(a, p, data[CHUNK..], k + 1);
      assert (|data| - CHUNK) / CHUNK == |data| / CHUNK - 1 && (|data| - CHUNK) % CHUNK == |data| % CHUNK;
    }
  }

  /** The length `EncryptedSize` computes when nothing overflows. */
  function PlainSize(n: nat): nat {
    PREFIX + n / CHUNK * SEALED + if n == 0 || n % CHUNK > 0 then n % CHUNK + TAG else 0
  }

  lemma StreamLength(a: Aead, p: seq<byte>, data: seq<byte>)
    requires Sized(a) && |p| == PREFIX
    ensures |Stream(a, p, data)| == PlainSize(|data|) + if |data| > 0 && |data| % LIMIT == 0 then TAG else 0
  {
    BodyLength(a, p, data, 0);
    var n := |data|;
    assert n % LIMIT == 0 <==> n % CHUNK == 0 && n / CHUNK % COUNTERS == 0;
  }

  /** No step of `EncryptedSize` overflows unless the length itself does, and then the answer is wrong. */
  lemma SizeOverflow(n: nat)
    ensures EncryptedSize(n) == PlainSize(n) <==> PlainSize(n) < 0x8000_0000_0000_0000
    ensures EncryptedSize(n) < 0x8000_0000_0000_0000
    ensures n < LIMIT ==> PlainSize(n) < 0x8000_0000_0000_0000
    ensures PlainSize(n) >= 0x8000_0000_0000_0000 ==> EncryptedSize(n) != PlainSize(n) + TAG
  {
  }

  /**
  `EncryptedSize` tells the length of the stream exactly when that length fits a 64-bit
  integer and the plaintext is not a positive multiple of 2^48 bytes.
  */
  lemma SizeIsStreamLength(a: Aead, p: seq<byte>, data: seq<byte>)
    requires Sized(a) && |p| == PREFIX
    ensures EncryptedSize(|data|) == |Stream(a, p, data)| <==>
      |Stream(a, p, data)| < 0x8000_0000_0000_0000 && (|data| == 0 || |data| % LIMIT != 0)
    ensures |data| < LIMIT ==> EncryptedSize(|data|) == |Stream(a, p, data)|
    ensures |data| == LIMIT ==> EncryptedSize(|data|) + TAG == |Stream(a, p, data)|
  {
    StreamLength(a, p, data);
    SizeOverflow(|data|);
  }

  // ---------------------------------------------------------------- readers and writers

  function Concat(s: seq<seq<byte>>): seq<byte> {
    if s == [] then [] else s[0] + Concat(s[1..])
  }

  /** How a source ends: with `io.EOF`, with an `io.ErrUnexpectedEOF` of its own, or with another error. */
  datatype End = Eof | Cut | Broken

  /** What `io.ReadFull` reports. */
  datatype ReadError = NoError | EndOfFile | UnexpectedEof | Failed

  /**
  A reader that hands out its bytes in arbitrary fragments, empty ones included, and then
  ends or breaks; an eager one reports the end together with its last bytes.
  */
  class Source {
    var fragments: seq<seq<byte>>
    const end: End
    const eager: bool

    ghost function Contents(): seq<byte>
      reads this
    {
      Concat(fragments)
    }

    constructor (fragments: seq<seq<byte>>, end: End, eager: bool)
      ensures this.fragments == fragments && this.end == end && this.eager == eager
    {
      this.fragments, this.end, this.eager := fragments, end, eager;
    }

    method Read(buf: array<byte>, at: nat) returns (n: nat, err: Option<End>)
      requires at < buf.Length
      modifies this, buf
      ensures n <= buf.Length - at && n <= |old(Contents())|
      ensures buf[..at] == old(buf[..at]) && buf[at..at + n] == old(Contents())[..n]
      ensures Contents() == old(Contents())[n..]
      ensures err.Some? ==> err.value == end && Contents() == []
      ensures err.None? ==> |fragments| < |old(fragments)| || n > 0
      ensures |fragments| <= |old(fragments)|
      ensures n == 0 && err.None? ==> |fragments| < |old(fragments)|
    {
      if fragments == [] {
        return 0, Some(end);
      }
      var f := fragments[0];
      n := if |f| < buf.Length - at then |f| else buf.Length - at;
      forall i | 0 <= i < n {
        buf[at + i] := f[i];
      }
      ghost var rest := Concat(fragments[1..]);
      assert (f + rest)[n..] == f[n..] + rest && (f + rest)[..n] == f[..n];
      if n < |f| {
        fragments := [f[n..]] + fragments[1..];
        assert fragments[1..] == old(fragments)[1..];
      } else {
        fragments := fragments[1..];
      }
      err := if eager && fragments == [] then Some(end) else None;
    }
  }

  function Remainder(s: seq<byte>, n: nat): seq<byte> {
    if |s| < n then [] else s[n..]
  }

  /** What `io.ReadFull` makes of the end: its own unexpected end looks like that of the source. */
  function EndError(end: End, n: nat): ReadError {
    match end
    case Broken => Failed
    case Cut => UnexpectedEof
    case Eof => if n == 0 then EndOfFile else UnexpectedEof
  }

  /** `io.ReadFull`: fills the buffer unless the source ends first; errors of the source are handed through. */
  method ReadFull(src: Source, buf: array<byte>) returns (n: nat, err: ReadError)
    requires buf.Length > 0
    modifies src, buf
    ensures n == if |old(src.Contents())| < buf.Length then |old(src.Contents())| else buf.Length
    ensures buf[..n] == old(src.Contents())[..n] && src.Contents() == old(src.Contents())[n..]
    ensures err == if n == buf.Length then NoError else EndError(src.end, n)
  {
    n := 0;
    var e: Option<End> := None;
    while n < buf.Length && e.None?
      invariant n <= buf.Length && n <= |old(src.Contents())|
      invariant buf[..n] == old(src.Contents())[..n] && src.Contents() == old(src.Contents())[n..]
      invariant e.Some? ==> e.value == src.end && src.Contents() == []
      decreases e.None?, buf.Length - n, |src.fragments|
    {
      label before:
      ghost var was := buf[..n];
      var m;
      m, e := src.Read(buf, n);
      assert buf[..n + m] == buf[..n] + buf[n..n + m];
      n := n + m;
    }
    err :=
      if n == buf.Length then NoError
      else if e == Some(Broken) then Failed
      else if e == Some(Eof) && n == 0 then EndOfFile else UnexpectedEof;
  }

  /** A writer, possibly limited: a write past the limit fails after its first bytes. */
  class Sink {
    var data: seq<byte>
    const limit: Option<nat>

    predicate Fits(n: nat) {
      limit.None? || n <= limit.value
    }

    constructor (limit: Option<nat>)
      ensures data == [] && this.limit == limit
    {
      data, this.limit := [], limit;
    }

    method Write(b: seq<byte>) returns (ok: bool)
      modifies this
      ensures ok == Fits(|old(data)| + |b|)
      ensures old(data) <= data <= old(data) + b
      ensures ok ==> data == old(data) + b
    {
      ok := Fits(|data| + |b|);
      if ok {
        data := data + b;
      } else if |data| < limit.value {
        data := data + b[..limit.value - |data|];
      }
    }
  }

  method PutUint32(nonce: array<byte>, i: uint32)
    requires nonce.Length == NONCE
    modifies nonce
    ensures nonce[..] == old(nonce[..PREFIX]) + BigEndian(i)
  {
    var b := BigEndian(i);
    nonce[8], nonce[9], nonce[10], nonce[11] := b[0], b[1], b[2], b[3];
  }

  method NewNonce(prefix: seq<byte>) returns (nonce: array<byte>)
    requires |prefix| == PREFIX
    ensures fresh(nonce) && nonce.Length == NONCE && nonce[..PREFIX] == prefix
  {
    nonce := new byte[NONCE](_ => 0);
    forall i | 0 <= i < PREFIX {
      nonce[i] := prefix[i];
    }
  }

  function Next(i: uint32): uint32 {
    if i == 0xFFFF_FFFF then 0 else i + 1
  }

  /** The wrapping 32-bit increment counts chunks modulo 2^32. */
  lemma NextCounter(k: nat)
    ensures Next(Counter(k)) == Counter(k + 1)
  {
    assert (k + 1) % COUNTERS == if k % COUNTERS == COUNTERS - 1 then 0 else k % COUNTERS + 1;
  }

  /**
  The effect of a stream method: `whole` is what should be written, `good` that nothing is
  wrong with the input.  An error is reported exactly when the input is bad or does not fit,
  and whatever was written is a prefix of the whole.
  */
  ghost predicate Copied(was: seq<byte>, now: seq<byte>, whole: seq<byte>, good: bool, fits: bool, err: bool) {
    && was <= now <= was + whole
    && (fits ==> now == was + whole)
    && (err <==> !good || !fits)
  }

  lemma BodyPrefixed(was: seq<byte>, p: seq<byte>, body: seq<byte>, now: seq<byte>)
    ensures was + p + body == was + (p + body)
    ensures was + p <= now ==> was <= now
  {
  }

  /** Writing x and then copying the rest amounts to copying x + rest. */
  lemma CopiedAfter(was: seq<byte>, x: seq<byte>, now: seq<byte>, rest: seq<byte>, good: bool, fits: bool, err: bool)
    requires Copied(was + x, now, rest, good, fits, err)
    ensures Copied(was, now, x + rest, good, fits, err)
  {
    assert was + x + rest == was + (x + rest);
  }

  /**
  One turn of the loop of `encryptStream`: read a chunk, and seal it unless the input had
  ended before.  Either the copy is complete or failed, or one piece has been written.
  */
  method EncryptChunk(a: Aead, ghost p: seq<byte>, i: uint32, ghost k: nat, buf: array<byte>, nonce: array<byte>,
                      src: Source, dst: Sink)
    returns (done: bool, err: bool)
    requires i == Counter(k) && buf.Length == CHUNK && nonce.Length == NONCE && nonce[..PREFIX] == p
    requires buf != nonce && dst.Fits(|dst.data|)
    modifies buf, nonce, src, dst
    ensures nonce[..PREFIX] == p && (!done ==> dst.Fits(|dst.data|))
    ensures var body := Body(a, p, old(src.Contents()), k);
      done ==> Copied(old(dst.data), dst.data, body, src.end != Broken, dst.Fits(|old(dst.data)| + |body|), err)
    ensures !done ==> |src.Contents()| < |old(src.Contents())|
    ensures !done ==>
      && dst.data == old(dst.data) + Piece(a, p, old(src.Contents()), k)
      && Body(a, p, old(src.Contents()), k) ==
         Piece(a, p, old(src.Contents()), k) + Body(a, p, src.Contents(), k + 1)
  {
    BodyStep(a, p, src.Contents(), k);
    PutUint32(nonce, i);
    assert nonce[..] == Nonce(p, k);
    var n, readErr := ReadFull(src, buf);
    if n > 0 || i == 0 {
      var sealed := a.seal(nonce[..], buf[..n]);
      var ok := dst.Write(sealed);
      if !ok {
        return true, true;
      }
    }
    return readErr != NoError, readErr == Failed;
  }

  method EncryptChunks(a: Aead, p: seq<byte>, src: Source, dst: Sink) returns (err: bool)
    requires |p| == PREFIX && dst.Fits(|dst.data|)
    modifies src, dst
    ensures var body := Body(a, p, old(src.Contents()), 0);
      Copied(old(dst.data), dst.data, body, src.end != Broken, dst.Fits(|old(dst.data)| + |body|), err)
  {
    var buf := new byte[CHUNK];
    var nonce := NewNonce(p);
    var i: uint32 := 0;
    ghost var k, written := 0, [];
    ghost var whole := Body(a, p, src.Contents(), 0);
    ghost var rest := whole;
    while true
      invariant i == Counter(k) && nonce[..PREFIX] == p && fresh(buf) && fresh(nonce) && dst.Fits(|dst.data|)
      invariant rest == Body(a, p, src.Contents(), k) && dst.data == old(dst.data) + written
      invariant written + rest == whole
      decreases |src.Contents()|
    {
      ghost var piece := Piece(a, p, src.Contents(), k);
      var done, failed := EncryptChunk(a, p, i, k, buf, nonce, src, dst);
      if done {
        CopiedAfter(old(dst.data), written, dst.data, rest, src.end != Broken,
                    dst.Fits(|old(dst.data)| + |written| + |rest|), failed);
        return failed;
      }
      ghost var next := Body(a, p, src.Contents(), k + 1);
      assert rest == piece + next;
      assert written + (piece + next) == (written + piece) + next;
      written, rest := written + piece, next;
      NextCounter(k);
      i := Next(i);
      k := k + 1;
    }
  }

  /**
  Encrypts src into dst.  A source that is cut off counts as ended: what it gave is sealed as
  if it were the whole, and no error is reported.  `prefix` is the outcome of drawing the random nonce
  prefix.
  */
  method EncryptStream(a: Aead, prefix: Option<seq<byte>>, src: Source, dst: Sink) returns (err: bool)
    requires prefix.Some? ==> |prefix.value| == PREFIX
    modifies src, dst
    ensures prefix.None? ==> err && dst.data == old(dst.data)
    ensures prefix.Some? ==>
      var stream := Stream(a, prefix.value, old(src.Contents()));
      Copied(old(dst.data), dst.data, stream, src.end != Broken, dst.Fits(|old(dst.data)| + |stream|), err)
  {
    if prefix.None? {
      return true;
    }
    var p := prefix.value;
    var ok := dst.Write(p);
    if !ok {
      return true;
    }
    err := EncryptChunks(a, p, src, dst);
    BodyPrefixed(old(dst.data), p, Body(a, p, old(src.Contents()), 0), dst.data);
  }

  /** What one turn of the decryption loop writes, given the sealed bytes still to be read, and whether they open. */
  function Opened(a: Aead, p: seq<byte>, c: seq<byte>, k: nat): (seq<byte>, bool) {
    if c == [] then ([], true)
    else
      match a.open(Nonce(p, k), c[..if |c| < SEALED then |c| else SEALED])
      case None => ([], false)
      case Some(x) => (x, true)
  }

  lemma OpenStep(a: Aead, p: seq<byte>, c: seq<byte>, k: nat)
    ensures var (x, genuine) := Opened(a, p, c, k);
      var rest := OpenAll(a, p, Remainder(c, SEALED), k + 1);
      OpenAll(a, p, c, k) == if genuine then (x + rest.0, rest.1) else ([], false)
  {
    var m := if |c| < SEALED then |c| else SEALED;
    assert Remainder(c, SEALED) == c[m..];
    if c == [] {
      assert [] + [] == c;
    }
  }

  lemma OpenLast(a: Aead, p: seq<byte>, c: seq<byte>, k: nat)
    requires |c| < SEALED
    ensures OpenAll(a, p, c, k) == Opened(a, p, c, k)
  {
    OpenStep(a, p, c, k);
    var (x, genuine) := Opened(a, p, c, k);
    assert Remainder(c, SEALED) == [] && x + [] == x;
  }

  /**
  Whether decryption takes the end after n sealed bytes for a good one: a cut is noticed only
  where a chunk would start.
  */
  predicate EndsWell(end: End, n: nat) {
    end == Eof || (end == Cut && !WholeChunks(n))
  }

  predicate WholeChunks(n: nat) {
    n == 0 || (n >= SEALED && WholeChunks(n - SEALED))
  }

  lemma {:induction false} WholeChunksIff(n: nat)
    ensures WholeChunks(n) <==> n % SEALED == 0
  {
    if n >= SEALED {
      WholeChunksIff(n - SEALED);
      assert (n - SEALED) % SEALED == n % SEALED;
    }
  }

  lemma EndsWellStep(end: End, n: nat)
    ensures n == 0 ==> (EndsWell(end, n) <==> EndError(end, n) == EndOfFile)
    ensures 0 < n < SEALED ==> (EndsWell(end, n) <==> EndError(end, n) != Failed)
    ensures n >= SEALED ==> EndsWell(end, n) == EndsWell(end, n - SEALED)
  {
  }

  /** One turn of the loop of `decryptStream`: it ends the copy or writes one opened chunk. */
  method DecryptChunk(a: Aead, ghost p: seq<byte>, i: uint32, ghost k: nat, buf: array<byte>, nonce: array<byte>,
                      src: Source, dst: Sink)
    returns (done: bool, err: bool)
    requires i == Counter(k) && buf.Length == SEALED && nonce.Length == NONCE && nonce[..PREFIX] == p
    requires buf != nonce && dst.Fits(|dst.data|)
    modifies buf, nonce, src, dst
    ensures nonce[..PREFIX] == p && (!done ==> dst.Fits(|dst.data|))
    ensures var (plain, clean) := OpenAll(a, p, old(src.Contents()), k);
      done ==> Copied(old(dst.data), dst.data, plain, clean && EndsWell(src.end, |old(src.Contents())|),
                      dst.Fits(|old(dst.data)| + |plain|), err)
    ensures !done ==>
      && |src.Contents()| < |old(src.Contents())|
      && EndsWell(src.end, |src.Contents()|) == EndsWell(src.end, |old(src.Contents())|)
    ensures var (x, genuine) := Opened(a, p, old(src.Contents()), k);
      var rest := OpenAll(a, p, src.Contents(), k + 1);
      !done ==> dst.data == old(dst.data) + x && OpenAll(a, p, old(src.Contents()), k) == (x + rest.0, rest.1)
  {
    ghost var c := src.Contents();
    OpenStep(a, p, c, k);
    if |c| < SEALED {
      OpenLast(a, p, c, k);
    }
    EndsWellStep(src.end, |c|);
    PutUint32(nonce, i);
    assert nonce[..] == Nonce(p, k);
    var n, readErr := ReadFull(src, buf);
    assert Opened(a, p, c, k) == if n == 0 then ([], true) else
      match a.open(nonce[..], buf[..n]) case None => ([], false) case Some(x) => (x, true);
    if n == 0 {
      return true, readErr != EndOfFile;
    }
    var plain := a.open(nonce[..], buf[..n]);
    if plain.None? {
      return true, true;
    }
    var ok := dst.Write(plain.value);
    if !ok {
      return true, true;
    }
    return readErr != NoError, readErr == Failed;
  }

  method DecryptChunks(a: Aead, p: seq<byte>, src: Source, dst: Sink) returns (err: bool)
    requires |p| == PREFIX && dst.Fits(|dst.data|)
    modifies src, dst
    ensures var (plain, clean) := OpenAll(a, p, old(src.Contents()), 0);
      Copied(old(dst.data), dst.data, plain, clean && EndsWell(src.end, |old(src.Contents())|),
             dst.Fits(|old(dst.data)| + |plain|), err)
  {
    var buf := new byte[SEALED];
    var nonce := NewNonce(p);
    var i: uint32 := 0;
    ghost var k, written := 0, [];
    ghost var (target, clean) := OpenAll(a, p, src.Contents(), 0);
    ghost var rest := target;
    ghost var well := EndsWell(src.end, |src.Contents()|);
    while true
      invariant i == Counter(k) && nonce[..PREFIX] == p && fresh(buf) && fresh(nonce) && dst.Fits(|dst.data|)
      invariant rest == OpenAll(a, p, src.Contents(), k).0 && clean == OpenAll(a, p, src.Contents(), k).1
      invariant dst.data == old(dst.data) + written
      invariant written + rest == target && well == EndsWell(src.end, |src.Contents()|)
      decreases |src.Contents()|
    {
      ghost var x := Opened(a, p, src.Contents(), k).0;
      var done, failed := DecryptChunk(a, p, i, k, buf, nonce, src, dst);
      if done {
        CopiedAfter(old(dst.data), written, dst.data, rest, clean && well,
                    dst.Fits(|old(dst.data)| + |written| + |rest|), failed);
        return failed;
      }
      ghost var next := OpenAll(a, p, src.Contents(), k + 1);
      assert rest == x + next.0 && clean == next.1;
      assert written + (x + next.0) == (written + x) + next.0;
      written, rest := written + x, next.0;
      NextCounter(k);
      i := Next(i);
      k := k + 1;
    }
  }

  lemma AuthenticIfGenuine(a: Aead, p: seq<byte>, chunks: seq<seq<byte>>)
    requires Genuine(a, p, chunks)
    ensures Authentic(a, p, chunks, 0)
  {
    forall j | 0 <= j < |chunks| ensures OpensOnly(a, Nonce(p, 0 + j), chunks[j]) {
      assert OpensOnly(a, Nonce(p, j), chunks[j]);
    }
  }

  lemma BodyWhole(a: Aead, p: seq<byte>, data: seq<byte>)
    requires Sized(a) && |data| < LIMIT
    ensures WholeChunks(|Body(a, p, data, 0)|) <==> data != [] && |data| % CHUNK == 0
  {
    BodyLength(a, p, data, 0);
    WholeChunksIff(|Body(a, p, data, 0)|);
  }

  /**
  Decrypting what a cut connection gave of a stream, its first t bytes, reports no error only
  when they are all of it and its last chunk is short; then the plaintext is complete.
  */
  lemma CutIsNoticed(a: Aead, p: seq<byte>, data: seq<byte>, t: nat)
    requires Sized(a) && Genuine(a, p, Chunks(data, 0)) && |data| < LIMIT
    requires |p| == PREFIX && t <= |Stream(a, p, data)|
    ensures var (plain, clean) := Read(a, Stream(a, p, data)[..t]);
      && (clean && EndsWell(Cut, Sealed(t)) <==>
            t == |Stream(a, p, data)| && (data == [] || |data| % CHUNK != 0))
      && (t == |Stream(a, p, data)| ==> plain == data && clean)
  {
    var s := Stream(a, p, data);
    AuthenticIfGenuine(a, p, Chunks(data, 0));
    if t < |s| {
      Truncated(a, p, data, t);
      WholeChunksIff(Sealed(t));
    } else {
      ChunksJoin(data, 0);
      OpenSealAll(a, p, Chunks(data, 0), 0);
      assert s[..t] == s && s[..PREFIX] == p && s[PREFIX..] == Body(a, p, data, 0);
      BodyWhole(a, p, data);
    }
  }

  /** How many of n bytes follow the nonce prefix. */
  function Sealed(n: nat): nat {
    if n < PREFIX then 0 else n - PREFIX
  }

  /** Decrypts src into dst. */
  method DecryptStream(a: Aead, src: Source, dst: Sink) returns (err: bool)
    requires dst.Fits(|dst.data|)
    modifies src, dst
    ensures var (plain, clean) := Read(a, old(src.Contents()));
      Copied(old(dst.data), dst.data, plain,
             clean && EndsWell(src.end, Sealed(|old(src.Contents())|)), dst.Fits(|old(dst.data)| + |plain|), err)
  {
    ghost var c := src.Contents();
    var prefix := new byte[PREFIX];
    var n, readErr := ReadFull(src, prefix);
    if readErr != NoError {
      return true;
    }
    assert prefix[..] == prefix[..n] == c[..PREFIX] && src.Contents() == c[PREFIX..];
    assert Read(a, c) == OpenAll(a, prefix[..], src.Contents(), 0) && Sealed(|c|) == |src.Contents()|;
    err := DecryptChunks(a, prefix[..], src, dst);
  }

  /**
  Encrypting and decrypting again, however either source is fragmented, copies the plaintext,
  or what there was of it when the source was cut.
  */
  method StoreAndLoad(a: Aead, p: seq<byte>, src: Source, dst: Sink, cuts: seq<nat>, eager: bool) returns (err: bool)
    requires Sized(a) && Opens(a) && |p| == PREFIX && src.end != Broken && dst.limit.None?
    modifies src, dst
    ensures !err && dst.data == old(dst.data) + old(src.Contents())
  {
    var stored := new Sink(None);
    err := EncryptStream(a, Some(p), src, stored);
    var fragments := Fragments(stored.data, cuts);
    var loaded := new Source(fragments, Eof, eager);
    RoundTrip(a, p, old(src.Contents()));
    assert [] + Stream(a, p, old(src.Contents())) == Stream(a, p, old(src.Contents()));
    err := DecryptStream(a, loaded, dst);
  }

  /** A plaintext whose reader is cut after t bytes is stored and loaded without error, as those bytes. */
  method StoreTruncated(a: Aead, p: seq<byte>, data: seq<byte>, t: nat, eager: bool, dst: Sink) returns (err: bool)
    requires Sized(a) && Opens(a) && |p| == PREFIX && t < |data| && dst.limit.None?
    modifies dst
    ensures !err && dst.data == old(dst.data) + data[..t]
  {
    var src := new Source([data[..t]], Cut, eager);
    assert [data[..t]][1..] == [] && Concat([data[..t]]) == data[..t] + Concat([]);
    err := StoreAndLoad(a, p, src, dst, [], eager);
  }

  /** Cuts the data into fragments of the given lengths, as far as they go. */
  function Fragments(data: seq<byte>, cuts: seq<nat>): (r: seq<seq<byte>>)
    ensures Concat(r) == data
    decreases |cuts|
  {
    if cuts == [] then
      assert [data][1..] == [];
      [data]
    else
      var n := if cuts[0] < |data| then cuts[0] else |data|;
      var rest := Fragments(data[n..], cuts[1..]);
      assert ([data[..n]] + rest)[1..] == rest;
      [data[..n]] + rest
  }
}
