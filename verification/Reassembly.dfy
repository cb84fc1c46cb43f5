/** The loop of `amqp_fetch_pending` that puts a message body together from its body frames,
    in a zeroed buffer one byte longer than the announced size. */
module Reassembly {
  import opened Wrappers

  // Number of values of a `size_t`.
  const SIZE_RANGE: int := 0x1_0000_0000_0000_0000

  // A frame as `amqp_simple_wait_frame` hands it out. A wait that fails is the end of the sequence.
  datatype Frame = BodyFrame(payload: string) | OtherFrame

  /** What a C function reading `s` as a string sees: everything before the first NUL. */
  function CString(s: string): string {
    if s == [] || s[0] == '\0' then [] else [s[0]] + CString(s[1..])
  }

  function Zeros(n: nat): string {
    seq(n, _ => '\0')
  }

  function Payload(f: Frame): string {
    if f.BodyFrame? then f.payload else []
  }

  function Padded(s: string, n: nat): string {
    s + Zeros(if |s| < n then n - |s| else 0)
  }

  /** The bytes that the first `k` frames brought in. */
  function Payloads(frames: seq<Frame>, k: nat): string
    requires k <= |frames|
  {
    if k == 0 then [] else Payloads(frames, k - 1) + Payload(frames[k - 1])
  }

  /** How many bytes that is. */
  function Size(frames: seq<Frame>, k: nat): nat
    requires k <= |frames|
  {
    if k == 0 then 0 else Size(frames, k - 1) + |Payload(frames[k - 1])|
  }

  /** The bytes of the first `k` frames that survive being printed with "%.*s". */
  function Texts(frames: seq<Frame>, k: nat): string
    requires k <= |frames|
  {
    if k == 0 then [] else Texts(frames, k - 1) + CString(Payload(frames[k - 1]))
  }

  /** The first `n` frames are body frames. */
  predicate OnlyBodies(frames: seq<Frame>, n: nat)
    requires n <= |frames|
  {
    n == 0 || (frames[n - 1].BodyFrame? && OnlyBodies(frames, n - 1))
  }

  lemma {:induction false} BodyBefore(frames: seq<Frame>, n: nat, i: nat)
    requires i < n <= |frames| && OnlyBodies(frames, n)
    ensures frames[i].BodyFrame?
  {
    if i < n - 1 {
      BodyBefore(frames, n - 1, i);
    }
  }

  /** The first `k` frames carry exactly the announced number of bytes, and no fewer do. */
  ghost predicate Complete(size: nat, frames: seq<Frame>, k: nat) {
    && k <= |frames|
    && OnlyBodies(frames, k)
    && Size(frames, k) == size
    && (k > 0 ==> |Payload(frames[k - 1])| > 0)
  }

  ghost predicate OnlyTrailingNuls(s: string) {
    forall i, j | 0 <= i < j < |s| && s[i] == '\0' :: s[j] == '\0'
  }

  lemma {:induction false} CStringIsPrefix(s: string)
    ensures |CString(s)| <= |s| && CString(s) == s[..|CString(s)|]
    ensures '\0' !in CString(s)
    ensures |CString(s)| < |s| ==> s[|CString(s)|] == '\0'
  {
    if s != [] && s[0] != '\0' {
      CStringIsPrefix(s[1..]);
    }
  }

  lemma {:induction false} CStringOfPadded(text: string, rest: string)
    requires '\0' !in text
    ensures CString(text + ['\0'] + rest) == text
    ensures CString(text) == text
  {
    if text == [] {
      assert text + ['\0'] + rest == ['\0'] + rest;
    } else {
      assert (text + ['\0'] + rest)[1..] == text[1..] + ['\0'] + rest;
      CStringOfPadded(text[1..], rest);
    }
  }

  lemma {:induction false} TextsFit(frames: seq<Frame>, k: nat)
    requires k <= |frames|
    ensures '\0' !in Texts(frames, k)
    ensures |Texts(frames, k)| <= Size(frames, k)
  {
    if k > 0 {
      TextsFit(frames, k - 1);
      CStringIsPrefix(Payload(frames[k - 1]));
    }
  }

  lemma {:induction false} SizeIsLength(frames: seq<Frame>, k: nat)
    requires k <= |frames|
    ensures |Payloads(frames, k)| == Size(frames, k)
  {
    if k > 0 {
      SizeIsLength(frames, k - 1);
    }
  }

  lemma {:induction false} PrefixIsShorter(frames: seq<Frame>, j: nat, k: nat)
    requires j <= k <= |frames|
    ensures Size(frames, j) <= Size(frames, k)
    ensures j < k && |Payload(frames[k - 1])| > 0 ==> Size(frames, j) < Size(frames, k)
    decreases k
  {
    if j < k {
      PrefixIsShorter(frames, j, k - 1);
    }
  }

  /** A body is complete at one point at most. */
  lemma UniqueGoal(size: nat, frames: seq<Frame>, k: nat)
    requires Complete(size, frames, k)
    ensures forall j: nat | Complete(size, frames, j) :: j == k
  {
    forall j: nat | Complete(size, frames, j) ensures j == k {
      if j < k {
        PrefixIsShorter(frames, j, k);
      } else {
        PrefixIsShorter(frames, k, j);
      }
    }
  }

  /** `snprintf` of a string: as much of it as fits in `size` bytes, then a NUL; the bytes after
      that NUL stay. */
  method Snprintf(buffer: array<char>, size: nat, text: string)
    requires 1 <= size <= buffer.Length
    modifies buffer
    ensures var n := if |text| < size then |text| else size - 1;
            buffer[..] == text[..n] + ['\0'] + old(buffer[..])[n + 1..]
  {
    var n := if |text| < size then |text| else size - 1;
    for i := 0 to n
      invariant forall j | 0 <= j < i :: buffer[j] == text[j]
      invariant forall j | i <= j < buffer.Length :: buffer[j] == old(buffer[j])
    {
      buffer[i] := text[i];
    }
    buffer[n] := '\0';
  }

  /** The point where the body is complete, or one past the frames when there is none. */
  lemma Goal(size: nat, frames: seq<Frame>) returns (goal: nat)
    ensures goal <= |frames| ==> Complete(size, frames, goal)
    ensures forall j: nat | Complete(size, frames, j) :: j == goal
  {
    goal := |frames| + 1;
    if k: nat :| Complete(size, frames, k) {
      goal := k;
      UniqueGoal(size, frames, k);
    }
  }

  /** Short of the end of a complete body the next frame is a body frame and does not overshoot. */
  lemma Progress(size: nat, frames: seq<Frame>, goal: nat, used: nat)
    requires used <= goal && Complete(size, frames, goal)
    ensures used < goal ==> Size(frames, used) < size
    ensures used < goal ==> frames[used].BodyFrame?
    ensures used < goal ==> Size(frames, used + 1) <= size
    ensures used == goal ==> Size(frames, used) == size
    ensures |Texts(frames, used)| <= size
  {
    PrefixIsShorter(frames, used, goal);
    TextsFit(frames, used);
    if used < goal {
      BodyBefore(frames, goal, used);
      PrefixIsShorter(frames, used + 1, goal);
    }
  }

  /** The first `n` characters at most. */
  function Clip(s: string, n: nat): string {
    if |s| <= n then s else s[..n]
  }

  /** Up to its first NUL the buffer holds a text. */
  predicate Reads(bytes: string, text: string) {
    |text| < |bytes| && '\0' !in text && bytes[..|text|] == text && bytes[|text|] == '\0'
  }

  lemma ReadsAsCString(bytes: string, text: string)
    requires Reads(bytes, text)
    ensures CString(bytes) == text
  {
    assert bytes == text + ['\0'] + bytes[|text| + 1..];
    CStringOfPadded(text, bytes[|text| + 1..]);
  }

  /** The fast path: the buffer is printed over with one fragment. */
  method PrintWhole(data: array<char>, size: nat, fragment: string, ghost text: string)
    requires data.Length == size + 1 && |fragment| == size
    requires |text| <= size && data[..] == Padded(text, size + 1)
    modifies data
    ensures text == "" ==> data[..] == Padded(CString(fragment), size + 1)
    ensures Reads(data[..], CString(fragment))
  {
    CStringIsPrefix(fragment);
    Snprintf(data, size + 1, CString(fragment));
  }

  /** The slow path: the string in the buffer is copied out and printed back with the fragment
      behind it. */
  method PrintBehind(data: array<char>, size: nat, fragment: string, ghost text: string)
    requires data.Length == size + 1
    requires '\0' !in text && |text| <= size && data[..] == Padded(text, size + 1)
    modifies data
    ensures data[..] == Padded(Clip(text + CString(fragment), size), size + 1)
    ensures '\0' !in Clip(text + CString(fragment), size)
  {
    CStringIsPrefix(fragment);
    assert data[..] == text + ['\0'] + Zeros(size - |text|);
    CStringOfPadded(text, Zeros(size - |text|));
    var c := CString(data[..]);
    Snprintf(data, size + 1, c + CString(fragment));
    assert data[..] == Padded(Clip(text + CString(fragment), size), size + 1);
  }

  /** Subtraction on `size_t`. */
  function Subtract(a: nat, b: nat): (r: int)
    requires a < SIZE_RANGE && b < SIZE_RANGE
    ensures 0 <= r < SIZE_RANGE && (r == a - b || r == a - b + SIZE_RANGE)
  {
    if b <= a then a - b else a - b + SIZE_RANGE
  }

  /** No frame is longer than a `size_t` can say. */
  ghost predicate Framed(frames: seq<Frame>) {
    forall i | 0 <= i < |frames| :: |Payload(frames[i])| < SIZE_RANGE
  }

  /** What the caller can read of a body in the end, and how many frames it took, for any frames,
      whether they make sense or not: `left` bytes are missing after the first `used` frames, and
      `text` has been put together. */
  function Assembled(size: nat, frames: seq<Frame>, used: nat, left: nat, text: string): (Option<string>, nat)
    requires used <= |frames| && left < SIZE_RANGE && Framed(frames)
    decreases |frames| - used
  {
    if left == 0 then (Some(text), used)
    else if used == |frames| then (None, used)
    else if !frames[used].BodyFrame? then (None, used + 1)
    else
      var fragment := Payload(frames[used]);
      if |fragment| == size then (Some(CString(fragment)), used + 1)
      else Assembled(size, frames, used + 1, Subtract(left, |fragment|), Clip(text + CString(fragment), size))
  }

  /** The outcome when the body is complete after `k` frames. */
  ghost predicate Received(size: nat, frames: seq<Frame>, k: nat, ok: bool, data: string, used: nat)
    requires k <= |frames|
  {
    ok && used == k && data == Padded(Texts(frames, k), size + 1)
  }

  /** The state of the loop after `used` frames: the buffer holds the text so far, and `bodyLen` counts
      what is missing. `goal` is where the body is complete. */
  ghost predicate Assembling(size: nat, frames: seq<Frame>, goal: nat, used: nat, bodyLen: nat, text: string, bytes: string) {
    && used <= |frames| && bodyLen < SIZE_RANGE
    && '\0' !in text && |text| <= size && bytes == Padded(text, size + 1)
    && (goal <= |frames| ==>
          Complete(size, frames, goal) && used <= goal && Size(frames, used) + bodyLen == size && text == Texts(frames, used))
  }

  lemma BeforeFrame(size: nat, frames: seq<Frame>, goal: nat, used: nat, bodyLen: nat)
    requires used <= goal && Complete(size, frames, goal) && Size(frames, used) + bodyLen == size
    ensures bodyLen == 0 <==> used == goal
    ensures used < goal ==> frames[used].BodyFrame? && bodyLen >= |frames[used].payload|
  {
    Progress(size, frames, goal, used);
    if used < goal {
      assert Size(frames, used + 1) == Size(frames, used) + |frames[used].payload|;
    }
  }

  /** A fragment of the announced size is the first with anything in it, and the last. */
  lemma WholeFragment(size: nat, frames: seq<Frame>, goal: nat, used: nat)
    requires used < goal && Complete(size, frames, goal) && |Payload(frames[used])| == size
    ensures Size(frames, used) == 0 && used + 1 == goal
  {
    assert Size(frames, used + 1) == Size(frames, used) + size;
    PrefixIsShorter(frames, used + 1, goal);
  }

  lemma NoText(frames: seq<Frame>, used: nat)
    requires used <= |frames| && Size(frames, used) == 0
    ensures Texts(frames, used) == ""
  {
    TextsFit(frames, used);
  }

  lemma ClippedText(text: string, fragment: string, size: nat)
    requires '\0' !in text
    ensures '\0' !in Clip(text + CString(fragment), size) && |Clip(text + CString(fragment), size)| <= size
  {
    CStringIsPrefix(fragment);
  }

  /** A fragment printed behind the text so far keeps the loop's state. */
  lemma PartAssembling(size: nat, frames: seq<Frame>, goal: nat, used: nat, bodyLen: nat, text: string, bytes: string)
    requires size + 1 < SIZE_RANGE && used < |frames| && frames[used].BodyFrame? && |frames[used].payload| < SIZE_RANGE
    requires bodyLen != 0 && Assembling(size, frames, goal, used, bodyLen, text, bytes)
    ensures var fragment := frames[used].payload;
            var after := Clip(text + CString(fragment), size);
            Assembling(size, frames, goal, used + 1, Subtract(bodyLen, |fragment|), after, Padded(after, size + 1))
  {
    var fragment := frames[used].payload;
    ClippedText(text, fragment, size);
    assert Size(frames, used + 1) == Size(frames, used) + |fragment|;
    assert Texts(frames, used + 1) == Texts(frames, used) + CString(fragment);
    if goal <= |frames| {
      BeforeFrame(size, frames, goal, used, bodyLen);
      Progress(size, frames, goal, used + 1);
    }
  }

  lemma WholeText(size: nat, frames: seq<Frame>, goal: nat, used: nat)
    requires used < goal && Complete(size, frames, goal) && |Payload(frames[used])| == size
    ensures used + 1 == goal && Texts(frames, used) == "" && Texts(frames, goal) == CString(Payload(frames[used]))
  {
    WholeFragment(size, frames, goal, used);
    NoText(frames, used);
    assert Texts(frames, used + 1) == Texts(frames, used) + CString(Payload(frames[used]));
  }

  /** A fragment of the announced size that completes a body is the whole of it. */
  lemma WholeReceived(size: nat, frames: seq<Frame>, goal: nat, used: nat, bodyLen: nat, text: string, bytes: string)
    requires used < |frames| && goal <= |frames| && bodyLen != 0 && Assembling(size, frames, goal, used, bodyLen, text, bytes)
    requires frames[used].BodyFrame? && |frames[used].payload| == size
    ensures text == "" && used + 1 == goal && Texts(frames, goal) == CString(frames[used].payload)
  {
    BeforeFrame(size, frames, goal, used, bodyLen);
    WholeText(size, frames, goal, used);
  }

  /** One body frame, on the fast path, which ends the loop, or on the slow one. */
  method TakeFragment(size: nat, frames: seq<Frame>, used: nat, data: array<char>, bodyLen: nat, ghost goal: nat, ghost text: string)
    returns (done: bool, left: nat, ghost text': string)
    requires size + 1 < SIZE_RANGE && data.Length == size + 1
    requires used < |frames| && frames[used].BodyFrame? && |frames[used].payload| < SIZE_RANGE && bodyLen != 0
    requires Assembling(size, frames, goal, used, bodyLen, text, data[..])
    modifies data
    ensures done <==> |frames[used].payload| == size
    ensures done && goal <= |frames| ==> Received(size, frames, goal, true, data[..], used + 1)
    ensures !done ==> Assembling(size, frames, goal, used + 1, left, text', data[..])
    ensures done ==> text' == CString(frames[used].payload) && Reads(data[..], text')
    ensures !done ==> left == Subtract(bodyLen, |frames[used].payload|) && text' == Clip(text + CString(frames[used].payload), size)
  {
    var fragment := frames[used].payload;
    done := |fragment| == size;
    if done {
      if goal <= |frames| {
        WholeReceived(size, frames, goal, used, bodyLen, text, data[..]);
      }
      PrintWhole(data, size, fragment, text);
      left, text' := bodyLen, CString(fragment);
    } else {
      PartAssembling(size, frames, goal, used, bodyLen, text, data[..]);
      PrintBehind(data, size, fragment, text);
      left, text' := Subtract(bodyLen, |fragment|), Clip(text + CString(fragment), size);
    }
  }

  lemma LoopDone(size: nat, frames: seq<Frame>, goal: nat, used: nat, text: string, bytes: string)
    requires Assembling(size, frames, goal, used, 0, text, bytes)
    ensures goal <= |frames| ==> Received(size, frames, goal, true, bytes, used)
    ensures Reads(bytes, text)
  {
    if goal <= |frames| {
      BeforeFrame(size, frames, goal, used, 0);
    }
  }

  /** While bytes are missing from a body that is going to be complete, there is another body frame. */
  lemma NoEarlyEnd(size: nat, frames: seq<Frame>, goal: nat, used: nat, bodyLen: nat, text: string, bytes: string)
    requires Assembling(size, frames, goal, used, bodyLen, text, bytes) && bodyLen != 0
    requires used == |frames| || !frames[used].BodyFrame?
    ensures goal > |frames|
  {
    if goal <= |frames| {
      BeforeFrame(size, frames, goal, used, bodyLen);
    }
  }

  /** The loop over the frames. */
  method Assemble(size: nat, frames: seq<Frame>, data: array<char>, ghost goal: nat)
    returns (ok: bool, used: nat, ghost text: string)
    requires size + 1 < SIZE_RANGE && Framed(frames) && data.Length == size + 1 && data[..] == Padded("", size + 1)
    requires goal <= |frames| ==> Complete(size, frames, goal)
    modifies data
    ensures used <= |frames|
    ensures goal <= |frames| ==> Received(size, frames, goal, ok, data[..], used)
    ensures Assembled(size, frames, 0, size, "") == (if ok then Some(text) else None, used)
    ensures ok ==> Reads(data[..], text)
  {
    var bodyLen: nat := size;
    used, text := 0, "";
    ghost var whole := Assembled(size, frames, 0, size, "");
    while bodyLen != 0
      invariant Assembling(size, frames, goal, used, bodyLen, text, data[..])
      invariant Assembled(size, frames, used, bodyLen, text) == whole
      decreases |frames| - used
    {
      if used == |frames| {
        NoEarlyEnd(size, frames, goal, used, bodyLen, text, data[..]);
        ok := false;
        return;
      }
      if !frames[used].BodyFrame? {
        NoEarlyEnd(size, frames, goal, used, bodyLen, text, data[..]);
        used := used + 1;
        ok := false;
        return;
      }
      var done;
      done, bodyLen, text := TakeFragment(size, frames, used, data, bodyLen, goal, text);
      used := used + 1;
      if done {
        ok := true;
        return;
      }
    }
    LoopDone(size, frames, goal, used, text, data[..]);
    ok := true;
  }

  /** A body that was received is the announced one, once the counter of missing bytes has wrapped
      around so many times, or it came in one fragment of its size. */
  ghost predicate Accounted(size: nat, frames: seq<Frame>, used: nat, wraps: nat)
    requires used <= |frames|
  {
    || (used > 0 && |Payload(frames[used - 1])| == size)
    || |Payloads(frames, used)| == size + wraps * SIZE_RANGE
  }

  /** Where the loop ends: after body frames that are accounted for, or at the first other frame, or
      where the frames end. */
  lemma {:induction false} WhereItEnds(size: nat, frames: seq<Frame>, used: nat, left: nat, text: string, wraps: nat)
    requires used <= |frames| && left < SIZE_RANGE && Framed(frames)
    requires OnlyBodies(frames, used) && Size(frames, used) + left == size + wraps * SIZE_RANGE
    ensures var (read, end) := Assembled(size, frames, used, left, text);
            && end <= |frames|
            && (read.Some? ==> OnlyBodies(frames, end) && exists n: nat :: Accounted(size, frames, end, n))
            && (read.None? ==> end == |frames| || (end > 0 && frames[end - 1].OtherFrame?))
    decreases |frames| - used
  {
    if left == 0 {
      SizeIsLength(frames, used);
      assert Accounted(size, frames, used, wraps);
    } else if used < |frames| && frames[used].BodyFrame? {
      var fragment := Payload(frames[used]);
      assert OnlyBodies(frames, used + 1) && Size(frames, used + 1) == Size(frames, used) + |fragment|;
      if |fragment| == size {
        assert Accounted(size, frames, used + 1, 0);
      } else {
        AssembledPart(size, frames, used, left, text);
        WhereItEnds(size, frames, used + 1, Subtract(left, |fragment|), Clip(text + CString(fragment), size),
                    if left < |fragment| then wraps + 1 else wraps);
      }
    }
  }

  lemma ClipTwice(s: string, t: string, n: nat)
    ensures Clip(Clip(s, n) + t, n) == Clip(s + t, n)
  {
    if |s| > n {
      assert Clip(s + t, n) == s[..n] && Clip(s[..n] + t, n) == s[..n];
    }
  }

  lemma ClippedStep(size: nat, frames: seq<Frame>, used: nat)
    requires used < |frames|
    ensures Clip(Clip(Texts(frames, used), size) + CString(Payload(frames[used])), size) == Clip(Texts(frames, used + 1), size)
  {
    ClipTwice(Texts(frames, used), CString(Payload(frames[used])), size);
  }

  /** `read` is the text of a fragment of the announced size, the first of them, when the loop ended with
      one, or else the front of all texts up to where it ended. */
  ghost predicate Explains(size: nat, frames: seq<Frame>, used: nat, read: string, end: nat) {
    && used <= end <= |frames|
    && (forall j | used <= j < end - 1 :: |Payload(frames[j])| != size)
    && read == if end > used && |Payload(frames[end - 1])| == size then CString(Payload(frames[end - 1])) else Clip(Texts(frames, end), size)
  }

  lemma ExplainsMore(size: nat, frames: seq<Frame>, used: nat, read: string, end: nat)
    requires used < |frames| && |Payload(frames[used])| != size && Explains(size, frames, used + 1, read, end)
    ensures Explains(size, frames, used, read, end)
  {
  }

  lemma ReadAtOnce(size: nat, frames: seq<Frame>, used: nat, left: nat, text: string)
    requires used <= |frames| && left < SIZE_RANGE && Framed(frames) && text == Clip(Texts(frames, used), size)
    requires left == 0 || used == |frames| || !frames[used].BodyFrame? || |Payload(frames[used])| == size
    ensures var (read, end) := Assembled(size, frames, used, left, text);
            read.Some? ==> Explains(size, frames, used, read.value, end)
  {
  }

  /** What is read of any frames: a fragment of the announced size ends the loop wherever it comes and
      takes the place of everything before it; without one, what is read is the front of all texts. */
  lemma {:induction false} WhatIsRead(size: nat, frames: seq<Frame>, used: nat, left: nat)
    requires used <= |frames| && left < SIZE_RANGE && Framed(frames)
    ensures var (read, end) := Assembled(size, frames, used, left, Clip(Texts(frames, used), size));
            read.Some? ==> Explains(size, frames, used, read.value, end)
    decreases |frames| - used
  {
    var text := Clip(Texts(frames, used), size);
    if left != 0 && used < |frames| && frames[used].BodyFrame? && |Payload(frames[used])| != size {
      var next := Subtract(left, |Payload(frames[used])|);
      AssembledPart(size, frames, used, left, text);
      ClippedStep(size, frames, used);
      WhatIsRead(size, frames, used + 1, next);
      var (read, end) := Assembled(size, frames, used + 1, next, Clip(Texts(frames, used + 1), size));
      if read.Some? {
        ExplainsMore(size, frames, used, read.value, end);
      }
    } else {
      ReadAtOnce(size, frames, used, left, text);
    }
  }

  /** Receives a body of `size` bytes. Nothing is ever written past the buffer, and the counter of
      missing bytes, a `size_t`, only wraps around when the frames carry more than was announced. */
  method ReceiveBody(size: nat, frames: seq<Frame>) returns (ok: bool, data: array<char>, used: nat)
    requires size + 1 < SIZE_RANGE && Framed(frames)
    ensures fresh(data) && data.Length == size + 1
    ensures used <= |frames|
    ensures forall k: nat | Complete(size, frames, k) :: Received(size, frames, k, ok, data[..], used)
    ensures ok ==> OnlyBodies(frames, used) && exists wraps: nat :: Accounted(size, frames, used, wraps)
    ensures !ok ==> used == |frames| || (used > 0 && frames[used - 1].OtherFrame?)
    ensures Assembled(size, frames, 0, size, "") == (if ok then Some(CString(data[..])) else None, used)
  {
    ghost var goal := Goal(size, frames);
    data := new char[size + 1](_ => '\0');
    assert data[..] == Padded("", size + 1);
    ghost var text;
    ok, used, text := Assemble(size, frames, data, goal);
    if ok {
      ReadsAsCString(data[..], text);
    }
    WhereItEnds(size, frames, 0, size, "", 0);
  }

  /** What the next fragment of a complete body takes off the missing bytes. */
  lemma NextSize(size: nat, frames: seq<Frame>, goal: nat, used: nat, left: nat)
    requires size < SIZE_RANGE && Complete(size, frames, goal) && used < goal && left + Size(frames, used) == size
    ensures left > 0 && frames[used].BodyFrame? && |Payload(frames[used])| < SIZE_RANGE
    ensures Subtract(left, |Payload(frames[used])|) + Size(frames, used + 1) == size
  {
    BeforeFrame(size, frames, goal, used, left);
    assert Size(frames, used + 1) == Size(frames, used) + |Payload(frames[used])|;
  }

  /** What it adds to the text. */
  lemma NextText(size: nat, frames: seq<Frame>, goal: nat, used: nat)
    requires Complete(size, frames, goal) && used < goal
    ensures Clip(Texts(frames, used) + CString(Payload(frames[used])), size) == Texts(frames, used + 1)
  {
    Progress(size, frames, goal, used + 1);
    assert Texts(frames, used + 1) == Texts(frames, used) + CString(Payload(frames[used]));
  }

  /** One turn of the loop. */
  lemma AssembledPart(size: nat, frames: seq<Frame>, used: nat, left: nat, text: string)
    requires 0 < left < SIZE_RANGE && Framed(frames) && used < |frames| && frames[used].BodyFrame?
    requires |Payload(frames[used])| != size
    ensures Assembled(size, frames, used, left, text) ==
            Assembled(size, frames, used + 1, Subtract(left, |Payload(frames[used])|), Clip(text + CString(Payload(frames[used])), size))
  {
  }

  /** For a complete body that is the text of its fragments. */
  lemma {:induction false} AssembledComplete(size: nat, frames: seq<Frame>, goal: nat, used: nat, left: nat)
    requires size < SIZE_RANGE && Framed(frames) && Complete(size, frames, goal) && used <= goal
    requires left + Size(frames, used) == size
    ensures Assembled(size, frames, used, left, Texts(frames, used)) == (Some(Texts(frames, goal)), goal)
    decreases goal - used
  {
    if used < goal {
      NextSize(size, frames, goal, used, left);
      var fragment := Payload(frames[used]);
      if |fragment| == size {
        WholeText(size, frames, goal, used);
      } else {
        AssembledPart(size, frames, used, left, Texts(frames, used));
        NextText(size, frames, goal, used);
        AssembledComplete(size, frames, goal, used + 1, Subtract(left, |fragment|));
      }
    }
  }

  lemma {:induction false} CStringOfConcat(s: string, t: string)
    ensures CString(s + t) == if '\0' in s then CString(s) else s + CString(t)
  {
    if s == [] {
      assert s + t == t;
    } else if s[0] != '\0' {
      var rest := s[1..];
      assert (s + t)[0] == s[0] && (s + t)[1..] == rest + t;
      CStringOfConcat(rest, t);
      assert CString(s + t) == [s[0]] + CString(rest + t);
      if '\0' in rest {
        assert '\0' in s;
      } else {
        assert s == [s[0]] + rest && '\0' !in s;
        assert [s[0]] + (rest + CString(t)) == ([s[0]] + rest) + CString(t);
      }
    }
  }

  lemma TailNuls(p: string, last: string)
    requires OnlyTrailingNuls(p + last)
    ensures OnlyTrailingNuls(p)
    ensures '\0' in p ==> CString(last) == []
    ensures '\0' !in p ==> CString(p) == p
  {
    var all := p + last;
    forall i, j | 0 <= i < j < |p| && p[i] == '\0' ensures p[j] == '\0' {
      assert all[i] == p[i] && all[j] == p[j];
    }
    CStringIsPrefix(p);
    if '\0' in p {
      var i :| 0 <= i < |p| && p[i] == '\0';
      assert all[i] == '\0';
      assert last != [] ==> all[|p|] == last[0];
    }
  }

  lemma {:induction false} TextsOfTail(frames: seq<Frame>, k: nat)
    requires k <= |frames| && OnlyTrailingNuls(Payloads(frames, k))
    ensures Texts(frames, k) == CString(Payloads(frames, k))
  {
    if k > 0 {
      var p, last := Payloads(frames, k - 1), Payload(frames[k - 1]);
      TailNuls(p, last);
      TextsOfTail(frames, k - 1);
      CStringOfConcat(p, last);
      assert Payloads(frames, k) == p + last;
      assert Texts(frames, k) == CString(p) + CString(last);
    }
  }

  /** For a complete body the buffer ends up holding the concatenation of the fragments exactly
      when the only NULs in it come last; a body without NULs is never damaged. */
  lemma ReassembledIff(size: nat, frames: seq<Frame>, k: nat)
    requires Complete(size, frames, k)
    ensures |Texts(frames, k)| <= size
    ensures Padded(Texts(frames, k), size) == Payloads(frames, k) <==> OnlyTrailingNuls(Payloads(frames, k))
    ensures '\0' !in Payloads(frames, k) ==> Texts(frames, k) == Payloads(frames, k)
  {
    TextsFit(frames, k);
    SizeIsLength(frames, k);
    var all, text := Payloads(frames, k), Texts(frames, k);
    if OnlyTrailingNuls(all) {
      TextsOfTail(frames, k);
      TailIsPadding(all);
    }
    if Padded(text, size) == all {
      PaddingIsTail(text, size);
    }
  }

  lemma TailIsPadding(s: string)
    requires OnlyTrailingNuls(s)
    ensures Padded(CString(s), |s|) == s
    ensures '\0' !in s ==> CString(s) == s
  {
    CStringIsPrefix(s);
    AllNuls(s, |CString(s)|);
  }

  lemma AllNuls(s: string, n: nat)
    requires n <= |s| && OnlyTrailingNuls(s) && (n < |s| ==> s[n] == '\0')
    ensures s == s[..n] + Zeros(|s| - n)
  {
    forall j | n <= j < |s| ensures s[j] == '\0' {
    }
  }

  lemma PaddingIsTail(text: string, size: nat)
    requires '\0' !in text && |text| <= size
    ensures OnlyTrailingNuls(Padded(text, size))
  {
    var s := Padded(text, size);
    forall i | 0 <= i < |text| ensures s[i] != '\0' {
      assert s[i] == text[i] && text[i] in text;
    }
  }
}
