/** The chunked sender of `extractTextFromPDF` (src/context/WebViewContext.tsx):
    a payload that fits in one chunk travels in a single
    `EXTRACT_TEXT_FROM_PDF` message, a larger one as `PDF_DATA_START`, the
    chunks at offsets 0, C, 2C, ... and `PDF_DATA_END`. The message list is
    specified here; the loop that sends it is `Bridge.Host.ExtractTextFromPdf`. */
module PdfTransfer {
  import opened Common
  import opened Messages

  /** 250 KB chunks on Android, 500 KB elsewhere. */
  function ChunkSize(platform: Platform): (size: nat)
    ensures size > 0
  {
    if platform == Android then 250 * 1024 else 500 * 1024
  }

  // ------------------------------------------------------------------
  // Arithmetic of offsets and chunk counts
  // ------------------------------------------------------------------

  lemma {:induction false} MulAtLeast(a: int, c: int)
    requires a >= 1 && c > 0
    ensures a * c >= c
    decreases a
  {
    if a > 1 {
      MulAtLeast(a - 1, c);
      assert a * c == (a - 1) * c + c;
    }
  }

  /** Euclidean division is determined by quotient and remainder. */
  lemma DivUnique(n: int, c: int, a: int, r: int)
    requires c > 0 && 0 <= r < c && n == a * c + r
    ensures n / c == a
  {
    var q, s := n / c, n % c;
    assert n == q * c + s;
    if q > a {
      assert (q - a) * c == r - s;
      MulAtLeast(q - a, c);
      assert false;
    } else if q < a {
      assert (a - q) * c == s - r;
      MulAtLeast(a - q, c);
      assert false;
    }
  }

  /** One more chunk for every further `c` characters. */
  lemma CeilDivStep(n: nat, c: nat)
    requires c > 0 && n > c
    ensures CeilDiv(n, c) == CeilDiv(n - c, c) + 1
  {
    var m := n - 1 - c;
    DivUnique(n - 1, c, m / c + 1, m % c);
  }

  lemma CeilDivOne(n: nat, c: nat)
    requires 0 < n <= c
    ensures CeilDiv(n, c) == 1
  {
    DivUnique(n - 1, c, 0, n - 1);
  }

  // ------------------------------------------------------------------
  // The message list
  // ------------------------------------------------------------------

  /** `payload.substring(i, i + size)`: clamped at the end of the payload. */
  function Chunk(payload: string, i: nat, size: nat): (chunk: string)
    requires i <= |payload|
  {
    if i + size <= |payload| then payload[i..i + size] else payload[i..]
  }

  /** The `PDF_DATA_CHUNK` messages for offsets `i`, `i + size`, ... below the
      payload's length, numbered from `k`; `totalChunks` decides `isLast`. */
  function ChunkMessages(payload: string, size: nat, transferId: string, totalChunks: nat, i: nat, k: nat)
    : (msgs: seq<Outgoing>)
    requires size > 0
    decreases |payload| - i
  {
    if i >= |payload| then []
    else
      [PdfDataChunk(Chunk(payload, i, size), transferId, k, k == totalChunks - 1)]
      + ChunkMessages(payload, size, transferId, totalChunks, i + size, k + 1)
  }

  /** Everything `extractTextFromPDF(payload)` sends, in order. */
  function TransferMessages(payload: string, size: nat, transferId: string): (msgs: seq<Outgoing>)
    requires size > 0
  {
    if |payload| <= size then [ExtractTextFromPdf(payload, transferId)]
    else
      var totalChunks := CeilDiv(|payload|, size);
      [PdfDataStart(transferId, totalChunks)]
      + ChunkMessages(payload, size, transferId, totalChunks, 0, 0)
      + [PdfDataEnd(transferId)]
  }

  /** What a receiver rebuilds from a message stream: the data of an
      `EXTRACT_TEXT_FROM_PDF` message, or the chunks joined in order. */
  function Received(msgs: seq<Outgoing>): (payload: string)
  {
    if msgs == [] then ""
    else
      var head := match msgs[0]
        case ExtractTextFromPdf(data, _) => data
        case PdfDataChunk(chunk, _, _, _) => chunk
        case _ => "";
      head + Received(msgs[1..])
  }

  lemma ReceivedAppend(a: seq<Outgoing>, b: seq<Outgoing>)
    ensures Received(a + b) == Received(a) + Received(b)
  {
    if a == [] {
      assert a + b == b;
    } else {
      assert (a + b)[0] == a[0];
      assert (a + b)[1..] == a[1..] + b;
      ReceivedAppend(a[1..], b);
    }
  }

  /** There are `ceil((L - i) / size)` chunks from offset `i`. */
  lemma {:induction false} ChunkCount(payload: string, size: nat, transferId: string, totalChunks: nat, i: nat, k: nat)
    requires size > 0 && i <= |payload|
    ensures |ChunkMessages(payload, size, transferId, totalChunks, i, k)| == CeilDiv(|payload| - i, size)
    decreases |payload| - i
  {
    if 0 < |payload| - i <= size {
      CeilDivOne(|payload| - i, size);
    } else if |payload| - i > size {
      CeilDivStep(|payload| - i, size);
      ChunkCount(payload, size, transferId, totalChunks, i + size, k + 1);
    }
  }

  /** A chunk message of the transfer with the given index: at most `size`
      long, non-empty, and exactly `size` long unless it is the last. */
  predicate WellFormedChunk(m: Outgoing, transferId: string, index: nat, isLast: bool, size: nat)
  {
    && m.PdfDataChunk?
    && m.transferId == transferId
    && m.chunkIndex == index
    && m.isLast == isLast
    && 0 < |m.chunk| <= size
    && (!isLast ==> |m.chunk| == size)
  }

  /** The chunks from offset `i` are numbered `k`, `k + 1`, ..., share the
      transfer id, are at most `size` long and all but the last exactly
      `size`; with `totalChunks` counted as the source counts it, `isLast`
      marks the last chunk and no other. */
  lemma {:induction false} ChunkFields(payload: string, size: nat, transferId: string, totalChunks: nat, i: nat, k: nat)
    requires size > 0 && i <= |payload|
    requires totalChunks == k + CeilDiv(|payload| - i, size)
    ensures var msgs := ChunkMessages(payload, size, transferId, totalChunks, i, k);
      forall j :: 0 <= j < |msgs| ==> WellFormedChunk(msgs[j], transferId, k + j, j == |msgs| - 1, size)
    decreases |payload| - i
  {
    var msgs := ChunkMessages(payload, size, transferId, totalChunks, i, k);
    if i < |payload| {
      var rest := ChunkMessages(payload, size, transferId, totalChunks, i + size, k + 1);
      assert msgs == [msgs[0]] + rest;
      ChunkCount(payload, size, transferId, totalChunks, i, k);
      if |payload| - i <= size {
        CeilDivOne(|payload| - i, size);
        assert rest == [];
      } else {
        CeilDivStep(|payload| - i, size);
        ChunkFields(payload, size, transferId, totalChunks, i + size, k + 1);
        ChunkCount(payload, size, transferId, totalChunks, i + size, k + 1);
        forall j | 0 < j < |msgs| ensures msgs[j] == rest[j - 1] { }
      }
    }
  }

  /** Joined in order, the chunks from offset `i` are the rest of the payload. */
  lemma {:induction false} ChunkJoin(payload: string, size: nat, transferId: string, totalChunks: nat, i: nat, k: nat)
    requires size > 0 && i <= |payload|
    ensures Received(ChunkMessages(payload, size, transferId, totalChunks, i, k)) == payload[i..]
    decreases |payload| - i
  {
    var msgs := ChunkMessages(payload, size, transferId, totalChunks, i, k);
    if i == |payload| {
      assert payload[i..] == [];
    } else {
      var rest := ChunkMessages(payload, size, transferId, totalChunks, i + size, k + 1);
      assert msgs[1..] == rest;
      if i + size <= |payload| {
        ChunkJoin(payload, size, transferId, totalChunks, i + size, k + 1);
        assert payload[i..] == payload[i..i + size] + payload[i + size..];
      } else {
        assert rest == [];
      }
    }
  }

  /** A payload of at most one chunk travels whole in one message; a larger
      one as a start message announcing `ceil(L / size)` chunks, exactly that
      many chunk messages, and an end message, all under one transfer id. */
  lemma TransferShape(payload: string, size: nat, transferId: string)
    requires size > 0
    ensures var msgs := TransferMessages(payload, size, transferId);
      && (|payload| <= size ==> msgs == [ExtractTextFromPdf(payload, transferId)])
      && (|payload| > size ==>
            var n := CeilDiv(|payload|, size);
            && |msgs| == n + 2
            && msgs[0] == PdfDataStart(transferId, n)
            && msgs[n + 1] == PdfDataEnd(transferId)
            && (forall j :: 1 <= j <= n ==> WellFormedChunk(msgs[j], transferId, j - 1, j == n, size)))
  {
    if |payload| > size {
      var n := CeilDiv(|payload|, size);
      var chunks := ChunkMessages(payload, size, transferId, n, 0, 0);
      ChunkCount(payload, size, transferId, n, 0, 0);
      ChunkFields(payload, size, transferId, n, 0, 0);
      var msgs := TransferMessages(payload, size, transferId);
      Framed(PdfDataStart(transferId, n), chunks, PdfDataEnd(transferId));
      forall j | 1 <= j <= n ensures WellFormedChunk(msgs[j], transferId, j - 1, j == n, size) {
        assert msgs[j] == chunks[j - 1];
      }
    }
  }

  lemma Framed<T>(a: T, mid: seq<T>, b: T)
    ensures var s := [a] + mid + [b];
      && |s| == |mid| + 2 && s[0] == a && s[|mid| + 1] == b
      && forall j :: 1 <= j <= |mid| ==> s[j] == mid[j - 1]
  {
  }

  /** The round trip: whichever way the payload travels, the receiver gets it
      back exactly. */
  lemma TransferRoundTrip(payload: string, size: nat, transferId: string)
    requires size > 0
    ensures Received(TransferMessages(payload, size, transferId)) == payload
  {
    var msgs := TransferMessages(payload, size, transferId);
    if |payload| <= size {
      assert msgs[1..] == [];
    } else {
      var n := CeilDiv(|payload|, size);
      var chunks := ChunkMessages(payload, size, transferId, n, 0, 0);
      ChunkJoin(payload, size, transferId, n, 0, 0);
      ReceivedAppend([PdfDataStart(transferId, n)] + chunks, [PdfDataEnd(transferId)]);
      ReceivedAppend([PdfDataStart(transferId, n)], chunks);
      assert [PdfDataStart(transferId, n)][1..] == [];
      assert [PdfDataEnd(transferId)][1..] == [];
      assert payload[0..] == payload;
    }
  }
}
