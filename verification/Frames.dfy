/**
 * The live view's frame stream (`machine/live.ts`, FrameParser): a kind byte, the payload's length in four bytes, most
 * significant first, and the payload, cut anywhere into chunks.
 */
module Frames {
  import opened Prelude

  newtype byte = x: int | 0 <= x < 256

  const HEADER := 5
  const MAX_FRAME := 32 * 1024 * 1024

  datatype Message = Message(kind: byte, payload: seq<byte>)

  /**
   * What a buffer parses to: its whole messages, the bytes kept, and whether those begin with a length no frame has.
   */
  datatype Parsed = Parsed(messages: seq<Message>, rest: seq<byte>, bad: bool)

  function Length(buf: seq<byte>): nat
    requires |buf| >= HEADER
  {
    ((buf[1] as nat * 256 + buf[2] as nat) * 256 + buf[3] as nat) * 256 + buf[4] as nat
  }

  /** A buffer that begins with a whole frame. */
  predicate HasFrame(buf: seq<byte>) {
    |buf| >= HEADER && Length(buf) <= MAX_FRAME && |buf| >= HEADER + Length(buf)
  }

  function First(buf: seq<byte>): Message
    requires HasFrame(buf)
  {
    Message(buf[0], buf[HEADER..HEADER + Length(buf)])
  }

  function Behind(buf: seq<byte>): (r: seq<byte>)
    requires HasFrame(buf)
    ensures |r| < |buf|
  {
    buf[HEADER + Length(buf)..]
  }

  predicate BadLength(buf: seq<byte>) { |buf| >= HEADER && Length(buf) > MAX_FRAME }

  function Parse(buf: seq<byte>): Parsed
    decreases |buf|
  {
    if !HasFrame(buf) then Parsed([], buf, BadLength(buf))
    else
      var p := Parse(Behind(buf));
      p.(messages := [First(buf)] + p.messages)
  }

  class FrameParser {
    var buf: seq<byte>

    constructor ()
      ensures buf == []
    {
      buf := [];
    }

    /** The messages the chunk finished, or nothing when it ends in a length no frame has (the source throws). */
    method Push(chunk: seq<byte>) returns (out: Option<seq<Message>>)
      modifies this
      ensures var p := Parse(old(buf) + chunk);
              buf == p.rest && out == if p.bad then None else Some(p.messages)
    {
      buf := buf + chunk;
      ghost var all := Parse(buf);
      var messages := [];
      while |buf| >= HEADER
        invariant all == Parsed(messages + Parse(buf).messages, Parse(buf).rest, Parse(buf).bad)
      {
        var len := Length(buf);
        if len > MAX_FRAME {
          return None;
        }
        if |buf| < HEADER + len {
          break;
        }
        assert messages + ([First(buf)] + Parse(Behind(buf)).messages) == messages + [First(buf)] +
          Parse(Behind(buf)).messages;
        messages := messages + [Message(buf[0], buf[HEADER..HEADER + len])];
        buf := buf[HEADER + len..];
      }
      assert Parse(buf) == Parsed([], buf, false);
      assert messages + [] == messages;
      return Some(messages);
    }
  }

  // The stream's encoding.

  ghost predicate Sendable(m: Message) { |m.payload| <= MAX_FRAME }

  function Encode(m: Message): seq<byte>
    requires Sendable(m)
  {
    var n := |m.payload|;
    [m.kind, (n / 0x100_0000) as byte, (n / 0x1_0000 % 256) as byte, (n / 0x100 % 256) as byte, (n % 256) as byte] +
      m.payload
  }

  function EncodeAll(ms: seq<Message>): seq<byte>
    requires forall m :: m in ms ==> Sendable(m)
  {
    if ms == [] then [] else Encode(ms[0]) + EncodeAll(ms[1..])
  }

  /** Neither a whole frame nor a bad length. */
  ghost predicate Incomplete(buf: seq<byte>) { !HasFrame(buf) && !BadLength(buf) }

  lemma EncodedComesFirst(m: Message, rest: seq<byte>)
    requires Sendable(m)
    ensures HasFrame(Encode(m) + rest) && First(Encode(m) + rest) == m && Behind(Encode(m) + rest) == rest
  {
    var n, all := |m.payload|, Encode(m) + rest;
    assert all[1] as nat == n / 0x100_0000 && all[2] as nat == n / 0x1_0000 % 256;
    assert all[3] as nat == n / 0x100 % 256 && all[4] as nat == n % 256;
    assert n / 0x100 == n / 0x1_0000 * 256 + n / 0x100 % 256;
    assert n / 0x1_0000 == n / 0x100_0000 * 256 + n / 0x1_0000 % 256;
    assert Length(all) == n;
  }

  /** Parsing undoes encoding, and keeps exactly the incomplete tail. */
  lemma {:induction false} ParseEncoded(ms: seq<Message>, tail: seq<byte>)
    requires (forall m :: m in ms ==> Sendable(m)) && Incomplete(tail)
    ensures Parse(EncodeAll(ms) + tail) == Parsed(ms, tail, false)
  {
    hide HasFrame;
    hide BadLength;
    hide First;
    hide Behind;
    hide Encode;
    if ms == [] {
      assert EncodeAll(ms) + tail == tail;
    } else {
      ParseEncoded(ms[1..], tail);
      var rest := EncodeAll(ms[1..]) + tail;
      assert EncodeAll(ms) + tail == Encode(ms[0]) + rest;
      EncodedComesFirst(ms[0], rest);
      assert ms == [ms[0]] + ms[1..];
    }
  }

  /**
   * A parse meets a bad length exactly from the last byte of the header that tells it on, and stops right before it.
   */
  lemma {:induction false} BadFromItsHeader(ms: seq<Message>, tail: seq<byte>)
    requires forall m :: m in ms ==> Sendable(m)
    requires |tail| < 5 || tail[1] as int * 0x100_0000 + tail[2] as int * 0x1_0000 + tail[3] as int * 0x100 +
                           tail[4] as int > 0x200_0000
    ensures Parse(EncodeAll(ms) + tail) == Parsed(ms, tail, |tail| >= 5)
  {
    hide *;
    if ms == [] {
      BadAlone(tail);
    } else {
      var m, later := ms[0], ms[1..];
      assert forall x :: x in later ==> x in ms;
      BadFromItsHeader(later, tail);
      EncodeOneFirst(ms, tail);
      EncodedComesFirst(m, EncodeAll(later) + tail);
      ParseUnfolds(EncodeAll(ms) + tail);
      assert ms == [m] + later;
    }
  }

  lemma BadAlone(tail: seq<byte>)
    requires |tail| < 5 || tail[1] as int * 0x100_0000 + tail[2] as int * 0x1_0000 + tail[3] as int * 0x100 +
                           tail[4] as int > 0x200_0000
    ensures EncodeAll([]) + tail == tail && Parse(tail) == Parsed([], tail, |tail| >= 5)
  {
  }

  lemma EncodeOneFirst(ms: seq<Message>, tail: seq<byte>)
    requires ms != [] && forall m :: m in ms ==> Sendable(m)
    ensures ms[0] in ms && EncodeAll(ms) + tail == Encode(ms[0]) + (EncodeAll(ms[1..]) + tail)
  {
    hide Encode;
  }

  /** Every parse accounts for every byte: the messages' encodings and the rest are the buffer again. */
  lemma {:induction false} ParseLosesNothing(buf: seq<byte>)
    ensures forall m :: m in Parse(buf).messages ==> Sendable(m)
    ensures buf == EncodeAll(Parse(buf).messages) + Parse(buf).rest
    ensures !HasFrame(Parse(buf).rest) && (Parse(buf).bad <==> BadLength(Parse(buf).rest))
    decreases |buf|
  {
    hide *;
    ParseUnfolds(buf);
    if HasFrame(buf) {
      var p, m := Parse(Behind(buf)), First(buf);
      ParseLosesNothing(Behind(buf));
      FrameIsBytes(buf);
      EncodeOneMore(m, p.messages);
      assert Encode(m) + (EncodeAll(p.messages) + p.rest) == Encode(m) + EncodeAll(p.messages) + p.rest;
    } else {
      assert [] + buf == buf;
    }
  }

  lemma ParseUnfolds(buf: seq<byte>)
    ensures Parse(buf) ==
            if !HasFrame(buf) then Parsed([], buf, BadLength(buf))
            else
              var p := Parse(Behind(buf));
              p.(messages := [First(buf)] + p.messages)
    ensures EncodeAll([]) == []
  {
  }

  lemma EncodeOneMore(m: Message, ms: seq<Message>)
    requires Sendable(m) && forall x :: x in ms ==> Sendable(x)
    ensures EncodeAll([m] + ms) == Encode(m) + EncodeAll(ms)
  {
    assert ([m] + ms)[1..] == ms;
  }

  lemma FrameIsBytes(buf: seq<byte>)
    requires HasFrame(buf)
    ensures Sendable(First(buf)) && buf == Encode(First(buf)) + Behind(buf)
  {
    Digits(buf[1] as nat, buf[2] as nat, buf[3] as nat, buf[4] as nat);
    assert Encode(First(buf)) == buf[..HEADER + Length(buf)];
  }

  lemma Digits(a: nat, b: nat, c: nat, d: nat)
    requires a < 256 && b < 256 && c < 256 && d < 256
    ensures var n := ((a * 256 + b) * 256 + c) * 256 + d;
            n / 0x100_0000 == a && n / 0x1_0000 % 256 == b && n / 0x100 % 256 == c && n % 256 == d
  {
  }

  // Chunks.

  /** What a buffer begins with, more bytes do not change. */
  lemma FirstStays(buf: seq<byte>, more: seq<byte>)
    ensures HasFrame(buf) ==>
      HasFrame(buf + more) && First(buf + more) == First(buf) && Behind(buf + more) == Behind(buf) + more
    ensures BadLength(buf) ==> BadLength(buf + more) && !HasFrame(buf + more)
  {
    if |buf| >= HEADER {
      assert Length(buf + more) == Length(buf);
    }
  }

  /** A parse may be resumed: what a buffer leaves, with what follows, parses to what the whole has left. */
  lemma {:induction false} ParseResumes(buf: seq<byte>, more: seq<byte>)
    requires !Parse(buf).bad
    ensures var p := Parse(Parse(buf).rest + more);
            Parse(buf + more) == p.(messages := Parse(buf).messages + p.messages)
    decreases |buf|
  {
    hide HasFrame;
    hide BadLength;
    hide First;
    hide Behind;
    var p := Parse(Parse(buf).rest + more);
    if HasFrame(buf) {
      ParseResumes(Behind(buf), more);
      FirstStays(buf, more);
      var q := Parse(Behind(buf));
      assert [First(buf)] + (q.messages + p.messages) == [First(buf)] + q.messages + p.messages;
    } else {
      assert [] + p.messages == p.messages;
    }
  }

  function Join(chunks: seq<seq<byte>>): seq<byte> {
    if chunks == [] then [] else Join(chunks[..|chunks| - 1]) + chunks[|chunks| - 1]
  }

  /** Pushing the chunks one by one, up to the first that throws: what came out, and the bytes kept. */
  function Feed(chunks: seq<seq<byte>>): Parsed {
    if chunks == [] then Parsed([], [], false)
    else
      var before := Feed(chunks[..|chunks| - 1]);
      if before.bad then before
      else
        var p := Parse(before.rest + chunks[|chunks| - 1]);
        if p.bad then Parsed(before.messages, p.rest, true) else Parsed(before.messages + p.messages, p.rest, false)
  }

  /**
   * However a stream is cut, the parser gives what parsing it whole gives, and throws exactly when that meets a bad
   * length.
   */
  lemma {:induction false} ChunksMakeNoDifference(chunks: seq<seq<byte>>)
    ensures Feed(chunks).bad <==> Parse(Join(chunks)).bad
    ensures !Feed(chunks).bad ==> Feed(chunks) == Parse(Join(chunks))
  {
    if chunks != [] {
      var front, last := chunks[..|chunks| - 1], chunks[|chunks| - 1];
      ChunksMakeNoDifference(front);
      if Feed(front).bad {
        BadStays(Join(front), last);
      } else {
        ParseResumes(Join(front), last);
        hide Parse;
      }
    }
  }

  lemma {:induction false} BadStays(buf: seq<byte>, more: seq<byte>)
    requires Parse(buf).bad
    ensures Parse(buf + more).bad && Parse(buf + more).messages == Parse(buf).messages
    decreases |buf|
  {
    hide HasFrame;
    hide BadLength;
    hide First;
    hide Behind;
    FirstStays(buf, more);
    if HasFrame(buf) {
      BadStays(Behind(buf), more);
    }
  }

  /**
   * Any cutting of a well-formed stream yields the encoded messages in order, and keeps exactly the incomplete tail.
   */
  lemma AnyCutting(chunks: seq<seq<byte>>, ms: seq<Message>, tail: seq<byte>)
    requires (forall m :: m in ms ==> Sendable(m)) && Incomplete(tail)
    requires Join(chunks) == EncodeAll(ms) + tail
    ensures Feed(chunks) == Parsed(ms, tail, false)
  {
    hide Feed;
    hide Parse;
    hide Join;
    ChunksMakeNoDifference(chunks);
    ParseEncoded(ms, tail);
  }

  /**
   * When a push throws, the messages it had finished are lost with it: what came out is what the chunks before gave.
   */
  lemma {:induction false} ThrowLosesItsPush(chunks: seq<seq<byte>>) returns (k: nat)
    requires Feed(chunks).bad
    ensures k < |chunks| && !Feed(chunks[..k]).bad && Parse(Join(chunks[..k + 1])).bad
    ensures Feed(chunks).messages == Parse(Join(chunks[..k])).messages
  {
    hide Parse;
    var front := chunks[..|chunks| - 1];
    if Feed(front).bad {
      k := ThrowLosesItsPush(front);
      assert front[..k] == chunks[..k] && front[..k + 1] == chunks[..k + 1];
    } else {
      k := |front|;
      ChunksMakeNoDifference(front);
      ChunksMakeNoDifference(chunks);
      assert chunks[..k + 1] == chunks;
    }
  }

  /**
   * For every stream with a bad length: of its messages exactly those are lost that the throwing push `k` had finished,
   * so a cutting loses none exactly when that push finishes none.
   */
  lemma {:induction false} LosesNothingIff(chunks: seq<seq<byte>>) returns (k: nat)
    requires Feed(chunks).bad
    ensures k < |chunks| && !Feed(chunks[..k]).bad && Feed(chunks[..k + 1]).bad
    ensures var finished := Parse(Feed(chunks[..k]).rest + chunks[k]).messages;
            && Parse(Join(chunks)).messages == Feed(chunks).messages + finished
            && (Feed(chunks).messages == Parse(Join(chunks)).messages <==> finished == [])
  {
    hide Parse;
    var front, last := chunks[..|chunks| - 1], chunks[|chunks| - 1];
    if Feed(front).bad {
      k := LosesNothingIff(front);
      assert front[..k] == chunks[..k] && front[..k + 1] == chunks[..k + 1];
      ChunksMakeNoDifference(front);
      BadStays(Join(front), last);
    } else {
      k := |front|;
      ChunksMakeNoDifference(front);
      ParseResumes(Join(front), last);
      assert chunks[..k + 1] == chunks;
    }
  }

  /**
   * So cutting does matter to a stream with a bad length: a message right before it comes out only when a cut lies
   * between.
   */
  lemma BadStreamDependsOnCuts(m: Message, bad: seq<byte>)
    requires Sendable(m) && BadLength(bad)
    ensures var good := Encode(m);
            && Join([good, bad]) == Join([good + bad])
            && Feed([good, bad]).messages == [m] && Feed([good + bad]).messages == []
  {
    var good := Encode(m);
    BadParses(m, bad);
    NothingParses();
    hide *;
    FeedMore([], good);
    FeedMore([good], bad);
    FeedMore([], good + bad);
    assert [] + [good] == [good] && [good] + [bad] == [good, bad] && [] + [good + bad] == [good + bad];
    assert [] + good == good && [] + bad == bad && [] + (good + bad) == good + bad;
  }

  lemma BadParses(m: Message, bad: seq<byte>)
    requires Sendable(m) && BadLength(bad)
    ensures Parse(bad).bad && Parse(Encode(m) + bad).bad && Parse(Encode(m)) == Parsed([m], [], false)
  {
    hide HasFrame;
    hide First;
    hide Behind;
    hide Encode;
    EncodedComesFirst(m, bad);
    EncodedComesFirst(m, []);
    NothingParses();
    FirstStays(bad, []);
    assert Encode(m) + [] == Encode(m) && bad + [] == bad;
    assert [m] + [] == [m];
  }

  lemma NothingParses()
    ensures Parse([]) == Feed([]) == Parsed([], [], false) && Join([]) == []
  {
  }

  lemma FeedMore(chunks: seq<seq<byte>>, c: seq<byte>)
    ensures Join(chunks + [c]) == Join(chunks) + c
    ensures var before := Feed(chunks);
            var p := Parse(before.rest + c);
            Feed(chunks + [c]) ==
            if before.bad then before
            else if p.bad then Parsed(before.messages, p.rest, true)
            else Parsed(before.messages + p.messages, p.rest, false)
  {
    assert (chunks + [c])[..|chunks|] == chunks;
  }
}
