/**
 The output limit of internal/shell/shell.go: one byte budget over a command's two streams.
 */
module OutputLimit {
  newtype byte = x: int | 0 <= x < 256

  class SharedLimit {
    const max: int
    var written: int

    constructor (max: int)
      ensures this.max == max && written == 0
    {
      this.max, written := max, 0;
    }
  }

  class LimitedWriter {
    var buf: seq<byte>
    const limit: SharedLimit

    constructor (limit: SharedLimit)
      ensures this.limit == limit && buf == []
    {
      this.limit, buf := limit, [];
    }

    // Accept all of p or none of it; what is rejected is charged all the same.
    method Write(p: seq<byte>) returns (n: nat, ok: bool)
      modifies this, limit
      ensures limit.written == old(limit.written) + |p|
      ensures ok <==> old(limit.written) + |p| <= limit.max
      ensures buf == (if ok then old(buf) + p else old(buf)) && n == if ok then |p| else 0
    {
      limit.written := limit.written + |p|;
      if limit.written > limit.max {
        return 0, false;
      }
      buf := buf + p;
      return |p|, true;
    }
  }

  datatype Stream = Stdout | Stderr
  datatype Chunk = Chunk(stream: Stream, bytes: seq<byte>)

  function Total(chunks: seq<Chunk>): nat {
    if chunks == [] then 0
    else Total(chunks[..|chunks| - 1]) + |chunks[|chunks| - 1].bytes|
  }

  // What was written to one stream.
  function StreamOf(chunks: seq<Chunk>, stream: Stream): seq<byte> {
    if chunks == [] then []
    else
      var last := chunks[|chunks| - 1];
      StreamOf(chunks[..|chunks| - 1], stream) + if last.stream == stream then last.bytes else []
  }

  /** What is written to a stream is the concatenation of its chunks, in order. */
  lemma {:induction false} StreamOfConcat(a: seq<Chunk>, b: seq<Chunk>, stream: Stream)
    ensures StreamOf(a + b, stream) == StreamOf(a, stream) + StreamOf(b, stream)
  {
    if b == [] {
      assert a + b == a;
    } else {
      var n, last := |b| - 1, b[|b| - 1];
      StreamOfConcat(a, b[..n], stream);
      assert (a + b)[..|a + b| - 1] == a + b[..n] && (a + b)[|a + b| - 1] == last;
      var bytes := if last.stream == stream then last.bytes else [];
      assert StreamOf(a + b, stream) == StreamOf(a + b[..n], stream) + bytes;
      assert StreamOf(b, stream) == StreamOf(b[..n], stream) + bytes;
    }
  }

  lemma StreamOfOne(chunk: Chunk, stream: Stream)
    ensures StreamOf([chunk], stream) == if chunk.stream == stream then chunk.bytes else []
  {
    assert [chunk][..0] == [];
  }

  // The first k chunks are the longest prefix within max bytes.
  ghost predicate LongestWithin(max: int, chunks: seq<Chunk>, k: nat) {
    && k <= |chunks| && Total(chunks[..k]) <= max
    && forall j :: k < j <= |chunks| ==> Total(chunks[..j]) > max
  }

  // The first k writes were accepted and collected, and no other.
  ghost predicate Collected(chunks: seq<Chunk>, k: nat, stdout: seq<byte>, stderr: seq<byte>, accepted: seq<bool>) {
    && k <= |chunks| == |accepted|
    && stdout == StreamOf(chunks[..k], Stdout) && stderr == StreamOf(chunks[..k], Stderr)
    && forall i :: 0 <= i < |accepted| ==> (accepted[i] <==> i < k)
  }

  lemma CollectNext(chunks: seq<Chunk>, i: nat, k: nat, stdout: seq<byte>, stderr: seq<byte>, accepted: seq<bool>,
                    ok: bool)
    requires i < |chunks| && Collected(chunks[..i], k, stdout, stderr, accepted) && (ok ==> k == i)
    ensures var Chunk(stream, bytes) := chunks[i];
      Collected(chunks[..i + 1], if ok then i + 1 else k,
                if ok && stream.Stdout? then stdout + bytes else stdout,
                if ok && stream.Stderr? then stderr + bytes else stderr, accepted + [ok])
  {
    var next := chunks[..i + 1];
    assert next[..i] == chunks[..i] && next[..i + 1] == next;
    assert chunks[..i][..k] == chunks[..k] == next[..k];
  }

  // How cmd.Run ends: well, with the child's exit error, or with another error.
  datatype Run = Clean | ExitedWith(code: int) | Broken
  datatype Outcome = Output(stdout: seq<byte>, stderr: seq<byte>)
                   | ExitError(stdout: seq<byte>, stderr: seq<byte>, exitCode: int)

  /** The two streams together are everything that was written. */
  lemma {:induction false} StreamsAddUp(chunks: seq<Chunk>)
    ensures |StreamOf(chunks, Stdout)| + |StreamOf(chunks, Stderr)| == Total(chunks)
  {
    if chunks == [] {
    } else {
      StreamsAddUp(chunks[..|chunks| - 1]);
    }
  }

  // The writes when a limit is set; a max of 0 or less is no limit.
  method Limited(max: int, chunks: seq<Chunk>) returns (stdout: seq<byte>, stderr: seq<byte>, accepted: seq<bool>)
    requires max > 0
    ensures exists k :: LongestWithin(max, chunks, k) && Collected(chunks, k, stdout, stderr, accepted)
    ensures |stdout| + |stderr| <= max
  {
    var limit := new SharedLimit(max);
    var out := new LimitedWriter(limit);
    var err := new LimitedWriter(limit);
    accepted := [];
    ghost var k: nat := 0;
    for i := 0 to |chunks|
      invariant k <= i && limit.written == Total(chunks[..i])
      invariant Total(chunks[..k]) <= max && forall j :: k < j <= i ==> Total(chunks[..j]) > max
      invariant Collected(chunks[..i], k, out.buf, err.buf, accepted)
    {
      assert chunks[..i + 1][..i] == chunks[..i];
      ghost var stdout', stderr' := out.buf, err.buf;
      var writer := if chunks[i].stream.Stdout? then out else err;
      var _, ok := writer.Write(chunks[i].bytes);
      CollectNext(chunks, i, k, stdout', stderr', accepted, ok);
      accepted := accepted + [ok];
      if ok {
        k := i + 1;
      }
    }
    assert chunks[..|chunks|] == chunks;
    StreamsAddUp(chunks[..k]);
    return out.buf, err.buf, accepted;
  }

  method Unlimited(chunks: seq<Chunk>) returns (stdout: seq<byte>, stderr: seq<byte>, accepted: seq<bool>)
    ensures Collected(chunks, |chunks|, stdout, stderr, accepted)
  {
    stdout, stderr, accepted := [], [], [];
    for i := 0 to |chunks|
      invariant Collected(chunks[..i], i, stdout, stderr, accepted)
    {
      CollectNext(chunks, i, i, stdout, stderr, accepted, true);
      if chunks[i].stream.Stdout? {
        stdout := stdout + chunks[i].bytes;
      } else {
        stderr := stderr + chunks[i].bytes;
      }
      accepted := accepted + [true];
    }
    assert chunks[..|chunks|] == chunks;
  }

  // ExecFile with the child's interleaved writes and its end given.
  method ExecFile(max: int, chunks: seq<Chunk>, run: Run) returns (r: Outcome, accepted: seq<bool>)
    ensures max <= 0 ==> Collected(chunks, |chunks|, r.stdout, r.stderr, accepted)
    ensures max > 0 ==>
      exists k :: LongestWithin(max, chunks, k) && Collected(chunks, k, r.stdout, r.stderr, accepted)
    ensures max > 0 ==> |r.stdout| + |r.stderr| <= max
    ensures r.Output? <==> run == Clean
    ensures r.ExitError? ==> r.exitCode == if run.ExitedWith? then run.code else 1
  {
    var stdout, stderr;
    if max > 0 {
      stdout, stderr, accepted := Limited(max, chunks);
    } else {
      stdout, stderr, accepted := Unlimited(chunks);
    }
    if run != Clean {
      var exitCode := 1;
      if run.ExitedWith? {
        exitCode := run.code;
      }
      return ExitError(stdout, stderr, exitCode), accepted;
    }
    return Output(stdout, stderr), accepted;
  }

  /** Once a write would go over the limit so would every later one: the longest prefix within
      the limit is the writes before the first one over it. */
  lemma {:induction false} TotalGrows(chunks: seq<Chunk>, j: nat, k: nat)
    requires j <= k <= |chunks|
    ensures Total(chunks[..j]) <= Total(chunks[..k])
  {
    if j < k {
      assert chunks[..k][..k - 1] == chunks[..k - 1];
      TotalGrows(chunks, j, k - 1);
    }
  }

  lemma LongestIsFirstOver(max: int, chunks: seq<Chunk>, k: nat)
    requires k <= |chunks|
    ensures LongestWithin(max, chunks, k) <==>
      Total(chunks[..k]) <= max && (k < |chunks| ==> Total(chunks[..k + 1]) > max)
  {
    if k < |chunks| {
      forall j | k < j <= |chunks| ensures Total(chunks[..k + 1]) <= Total(chunks[..j]) {
        TotalGrows(chunks, k + 1, j);
      }
    }
  }
}
