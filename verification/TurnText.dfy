/** lib/util.py and lib/hooklib.py: cutting a turn into chunks and queueing them. */
module TurnText {
  import opened Schema
  import opened Jobs

  /** chunk_text */
  function ChunkText(s: string): (r: seq<string>)
    decreases |s|
  {
    if s == "" then []
    else if |s| <= CHUNK_LIMIT then [s]
    else [s[..CHUNK_LIMIT]] + ChunkText(s[CHUNK_LIMIT..])
  }

  function Concat(parts: seq<string>): string {
    if parts == [] then "" else parts[0] + Concat(parts[1..])
  }

  /** The footer goes behind the last chunk. */
  function WithFooter(chunks: seq<string>, footer: string): (r: seq<string>)
    ensures |r| == |chunks|
  {
    if chunks == [] then [] else chunks[..|chunks| - 1] + [chunks[|chunks| - 1] + footer]
  }

  lemma {:induction false} ConcatAppend(a: seq<string>, b: seq<string>)
    ensures Concat(a + b) == Concat(a) + Concat(b)
  {
    if a == [] {
      assert a + b == b;
    } else {
      assert (a + b)[1..] == a[1..] + b;
      ConcatAppend(a[1..], b);
    }
  }

  /** Cutting loses nothing, and no piece is empty or over the limit. */
  lemma {:induction false} ChunkTextWhole(s: string)
    ensures Concat(ChunkText(s)) == s
    ensures forall i :: 0 <= i < |ChunkText(s)| ==> 0 < |ChunkText(s)[i]| <= CHUNK_LIMIT
    ensures s != "" ==> ChunkText(s) != []
    decreases |s|
  {
    if |s| > CHUNK_LIMIT {
      ChunkTextWhole(s[CHUNK_LIMIT..]);
      assert s == s[..CHUNK_LIMIT] + s[CHUNK_LIMIT..];
      assert ChunkText(s)[1..] == ChunkText(s[CHUNK_LIMIT..]);
    } else if s != "" {
      assert ChunkText(s)[1..] == [];
    }
  }

  /** What the chat is to receive for a turn. */
  lemma TurnTextWhole(s: string, footer: string)
    requires s != ""
    ensures Concat(WithFooter(ChunkText(s), footer)) == s + footer
  {
    ChunkTextWhole(s);
    var c := ChunkText(s);
    var init, last := c[..|c| - 1], c[|c| - 1];
    assert c == init + [last];
    ConcatAppend(init, [last]);
    ConcatAppend(init, [last + footer]);
    assert Concat([last]) == last + Concat([last][1..]);
    assert Concat([last + footer]) == last + footer + Concat([last + footer][1..]);
  }

  /** A prefix of the chunks says a prefix of the text. */
  lemma ConcatPrefix(parts: seq<string>, m: nat)
    requires m <= |parts|
    ensures Concat(parts[..m]) <= Concat(parts)
  {
    assert parts == parts[..m] + parts[m..];
    ConcatAppend(parts[..m], parts[m..]);
  }

  /** The chunk loop of run_stop_hook. */
  function EnqueueTurn(js: seq<Job>, g: nat, binding: nat, chat: nat, chunks: seq<string>, from: nat, now: int)
    : seq<Job>
    requires from <= |chunks|
    decreases |chunks| - from
  {
    if from == |chunks| then js
    else EnqueueTurn(AddJob(js, TurnJob(TurnGroup(g), from, Some(binding), chat, chunks[from], now)),
                     g, binding, chat, chunks, from + 1, now)
  }

  function TurnJobs(g: nat, binding: nat, chat: nat, chunks: seq<string>, now: int): (r: seq<Job>)
    ensures |r| == |chunks|
  {
    seq(|chunks|, i requires 0 <= i < |chunks| =>
      TurnJob(TurnGroup(g), i, Some(binding), chat, chunks[i], now))
  }

  /** Under a group identifier never used before, every chunk is queued, in order, side by side. */
  lemma {:induction false} EnqueueTurnAppends(js: seq<Job>, g: nat, binding: nat, chat: nat, chunks: seq<string>,
                                              from: nat, now: int)
    requires from <= |chunks|
    requires forall i, c :: 0 <= i < |js| && from <= c ==> js[i].key != KTurn(TurnGroup(g), c)
    ensures EnqueueTurn(js, g, binding, chat, chunks, from, now)
            == js + TurnJobs(g, binding, chat, chunks, now)[from..]
    decreases |chunks| - from
  {
    var all := TurnJobs(g, binding, chat, chunks, now);
    if from < |chunks| {
      var job := TurnJob(TurnGroup(g), from, Some(binding), chat, chunks[from], now);
      assert !KeyUsed(js, job.key);
      EnqueueTurnAppends(js + [job], g, binding, chat, chunks, from + 1, now);
      assert all[from..] == [job] + all[from + 1..];
      assert js + [job] + all[from + 1..] == js + all[from..];
    } else {
      assert js + all[from..] == js;
    }
  }
}
