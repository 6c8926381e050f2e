/** The single-producer single-consumer ring. Both sides run concurrently, each acting
    on a possibly stale copy of the other's counter, and both counters wrap at 2^64.
    The ring is shown to refine an unbounded FIFO. */
module RecordingQueue {
  import opened Words

  /** Template parameter Capacity: 2^order with order <= 63. */
  type Order = k: nat | k <= 63

  /** `counter & (Capacity - 1)`. */
  function Slot(counter: Word, order: Order): (slot: nat)
    ensures slot < Pow2(order)
  {
    LowBits(counter, order);
    BitAnd(counter, Pow2(order) - 1)
  }

  /** The slot of a wrapped counter is the slot of the true count. */
  lemma SlotOfCount(n: nat, order: Order)
    ensures Slot(n % WORD, order) == n % Pow2(order)
  {
    WrapKeepsSlot(n, order);
  }

  /** Two counts less than a capacity apart use different slots. */
  lemma SlotsDiffer(i: nat, j: nat, order: Order)
    requires i < j < i + Pow2(order)
    ensures i % Pow2(order) != j % Pow2(order)
  {
    RemaindersDiffer(i, j, Pow2(order));
  }

  lemma NotMultiple(k: int, cap: nat, d: nat)
    requires 0 < d < cap
    ensures k * cap != d
  {
    if k > 0 {
      MultipleIsFar(k, cap);
    } else if k < 0 {
      MultipleIsFar(-k, cap);
    }
  }

  lemma RemaindersDiffer(i: nat, j: nat, cap: nat)
    requires i < j < i + cap
    ensures i % cap != j % cap
  {
    var a, b := i / cap, j / cap;
    NotMultiple(b - a, cap, j - i);
    assert i == a * cap + i % cap && j == b * cap + j % cap;
    assert (b - a) * cap == b * cap - a * cap;
  }

  // The concurrent ring.

  datatype Producer<T> =
    | PIdle
    | PLoadedWrite(value: T, write: Word)
    | PLoadedRead(value: T, write: Word, read: Word)
    | PStored(value: T, write: Word)

  datatype Consumer<T> =
    | CIdle
    | CLoadedRead(read: Word)
    | CLoadedWrite(read: Word, write: Word)
    | CCopied(value: T, read: Word)

  /** A ring in the middle of a run. `pushed` and `popped` are the histories; the
      machine itself reads only storage, write, read and the two program counters. */
  datatype Ring<T> = Ring(
    order: Order,
    storage: seq<T>,
    write: Word,
    read: Word,
    producer: Producer<T>,
    consumer: Consumer<T>,
    pushed: seq<T>,
    popped: seq<T>)

  datatype Step<T> = StartPush(value: T) | Push | StartPop | Pop

  function Capacity<T>(r: Ring<T>): nat { Pow2(r.order) }

  /** One shared access of try_push or try_pop. */
  function Next<T>(r: Ring<T>, step: Step<T>): Ring<T>
    requires |r.storage| == Capacity(r)
  {
    match step
    case StartPush(value) =>
      if r.producer.PIdle? then r.(producer := PLoadedWrite(value, r.write)) else r
    case Push => NextPush(r)
    case StartPop =>
      if r.consumer.CIdle? then r.(consumer := CLoadedRead(r.read)) else r
    case Pop => NextPop(r)
  }

  function NextPush<T>(r: Ring<T>): Ring<T>
    requires |r.storage| == Capacity(r)
  {
    match r.producer
    case PIdle => r
    case PLoadedWrite(value, write) => r.(producer := PLoadedRead(value, write, r.read))
    case PLoadedRead(value, write, read) =>
      if Minus(write, read) >= Capacity(r) then r.(producer := PIdle)
      else
        r.(storage := r.storage[Slot(write, r.order) := value], producer := PStored(value, write))
    case PStored(value, write) =>
      r.(write := Succ(write), producer := PIdle, pushed := r.pushed + [value])
  }

  function NextPop<T>(r: Ring<T>): Ring<T>
    requires |r.storage| == Capacity(r)
  {
    match r.consumer
    case CIdle => r
    case CLoadedRead(read) => r.(consumer := CLoadedWrite(read, r.write))
    case CLoadedWrite(read, write) =>
      if read == write then r.(consumer := CIdle)
      else
        r.(consumer := CCopied(r.storage[Slot(read, r.order)], read))
    case CCopied(value, read) =>
      r.(read := Succ(read), consumer := CIdle, popped := r.popped + [value])
  }

  ghost predicate Layout<T>(r: Ring<T>) {
    && |r.storage| == Capacity(r)
    && |r.popped| <= |r.pushed| <= |r.popped| + Capacity(r)
    && r.write == |r.pushed| % WORD
    && r.read == |r.popped| % WORD
    && r.popped == r.pushed[..|r.popped|]
    && forall i :: |r.popped| <= i < |r.pushed| ==> r.storage[i % Capacity(r)] == r.pushed[i]
  }

  /** The producer's copy of read_ is some earlier value of it; `seenRead` is the true count. */
  ghost predicate ProducerInv<T>(r: Ring<T>)
    requires Layout(r)
  {
    match r.producer
    case PIdle => true
    case PLoadedWrite(value, write) => write == r.write
    case PLoadedRead(value, write, read) =>
      write == r.write &&
      exists seenRead: nat :: StaleRead(r, read, seenRead)
    case PStored(value, write) =>
      && write == r.write
      && |r.pushed| < |r.popped| + Capacity(r)
      && r.storage[|r.pushed| % Capacity(r)] == value
  }

  ghost predicate StaleRead<T>(r: Ring<T>, read: Word, seenRead: nat) {
    read == seenRead % WORD && seenRead <= |r.popped| && |r.pushed| <= seenRead + Capacity(r)
  }

  /** The consumer's copy of write_ is some earlier value of it. */
  ghost predicate StaleWrite<T>(r: Ring<T>, write: Word, seenWrite: nat) {
    write == seenWrite % WORD && |r.popped| <= seenWrite <= |r.pushed|
  }

  ghost predicate ConsumerInv<T>(r: Ring<T>) {
    match r.consumer
    case CIdle => true
    case CLoadedRead(read) => read == r.read
    case CLoadedWrite(read, write) =>
      read == r.read &&
      exists seenWrite: nat :: StaleWrite(r, write, seenWrite)
    case CCopied(value, read) =>
      read == r.read && |r.popped| < |r.pushed| && value == r.pushed[|r.popped|]
  }

  ghost predicate Inv<T>(r: Ring<T>) {
    Layout(r) && ProducerInv(r) && ConsumerInv(r)
  }

  ghost predicate Initial<T>(r: Ring<T>) {
    && |r.storage| == Capacity(r)
    && r.write == 0 && r.read == 0 && r.pushed == [] && r.popped == []
    && r.producer.PIdle? && r.consumer.CIdle?
  }

  /** The capacity test on wrapped counters is the capacity test on the true counts. */
  lemma FullTest<T>(r: Ring<T>, read: Word, seenRead: nat)
    requires Layout(r) && StaleRead(r, read, seenRead)
    ensures Minus(r.write, read) == |r.pushed| - seenRead
  {
    WrapMinus(|r.pushed|, seenRead);
    CapacityFits(r.order);
  }

  lemma CapacityFits(order: Order)
    ensures Pow2(order) <= WORD / 2
  {
    WordIsPow2();
    Pow2Sum(order, 63 - order);
    MultipleIsFar(Pow2(63 - order), Pow2(order));
  }

  /** The emptiness test on wrapped counters is the emptiness test on the true counts. */
  lemma EmptyTest<T>(r: Ring<T>, write: Word, seenWrite: nat)
    requires Layout(r) && StaleWrite(r, write, seenWrite)
    ensures r.read == write <==> seenWrite == |r.popped|
  {
    WrapMinus(seenWrite, |r.popped|);
    CapacityFits(r.order);
  }

  /** Storing into the free slot leaves every unread slot alone. */
  lemma StoreKeepsUnread<T>(r: Ring<T>, value: T, write: Word, read: Word)
    requires Inv(r) && r.producer == PLoadedRead(value, write, read)
    ensures Inv(NextPush(r))
    ensures |NextPush(r).pushed| == |r.pushed|
  {
    var seenRead: nat :| StaleRead(r, read, seenRead);
    FullTest(r, read, seenRead);
    if Minus(write, read) < Capacity(r) {
      SlotOfCount(|r.pushed|, r.order);
      var r' := NextPush(r);
      forall i | |r.popped| <= i < |r.pushed|
        ensures r'.storage[i % Capacity(r)] == r.pushed[i]
      {
        SlotsDiffer(i, |r.pushed|, r.order);
      }
      ConsumerUnmoved(r, r');
    } else {
      ConsumerUnmoved(r, NextPush(r));
    }
  }

  lemma ConsumerUnmoved<T>(r: Ring<T>, r': Ring<T>)
    requires ConsumerInv(r)
    requires r'.consumer == r.consumer && r'.read == r.read && r'.popped == r.popped
    requires r.pushed <= r'.pushed
    ensures ConsumerInv(r')
  {
    if r.consumer.CLoadedWrite? {
      var seenWrite: nat :| StaleWrite(r, r.consumer.write, seenWrite);
      assert StaleWrite(r', r'.consumer.write, seenWrite);
    }
  }

  lemma ProducerUnmoved<T>(r: Ring<T>, r': Ring<T>)
    requires Layout(r) && Layout(r') && ProducerInv(r)
    requires r'.producer == r.producer && r'.write == r.write && r'.pushed == r.pushed
    requires r'.order == r.order && r'.storage == r.storage
    requires |r.popped| <= |r'.popped|
    ensures ProducerInv(r')
  {
    if r.producer.PLoadedRead? {
      var seenRead: nat :| StaleRead(r, r.producer.read, seenRead);
      assert StaleRead(r', r'.producer.read, seenRead);
    }
  }

  lemma PublishKeepsInv<T>(r: Ring<T>)
    requires Inv(r) && r.producer.PStored?
    ensures Inv(NextPush(r))
  {
    WrapSucc(|r.pushed|);
    ConsumerUnmoved(r, NextPush(r));
  }

  lemma PushKeepsInv<T>(r: Ring<T>)
    requires Inv(r)
    ensures Inv(NextPush(r))
  {
    match r.producer
    case PIdle =>
    case PLoadedWrite(value, write) =>
      var r' := NextPush(r);
      assert StaleRead(r', r.read, |r.popped|);
      ConsumerUnmoved(r, r');
    case PLoadedRead(value, write, read) => StoreKeepsUnread(r, value, write, read);
    case PStored(value, write) => PublishKeepsInv(r);
  }

  lemma LoadWriteKeepsInv<T>(r: Ring<T>)
    requires Inv(r) && r.consumer.CLoadedRead?
    ensures Inv(NextPop(r))
  {
    var r' := NextPop(r);
    assert StaleWrite(r', r.write, |r.pushed|);
    ProducerUnmoved(r, r');
  }

  /** What the consumer copies is the oldest value, or it finds the queue empty. */
  lemma CopyKeepsInv<T>(r: Ring<T>, read: Word, write: Word)
    requires Inv(r) && r.consumer == CLoadedWrite(read, write)
    ensures Inv(NextPop(r))
  {
    var seenWrite: nat :| StaleWrite(r, write, seenWrite);
    EmptyTest(r, write, seenWrite);
    SlotOfCount(|r.popped|, r.order);
    ProducerUnmoved(r, NextPop(r));
  }

  lemma ReleaseKeepsInv<T>(r: Ring<T>)
    requires Inv(r) && r.consumer.CCopied?
    ensures Inv(NextPop(r))
  {
    WrapSucc(|r.popped|);
    ProducerUnmoved(r, NextPop(r));
  }

  lemma PopKeepsInv<T>(r: Ring<T>)
    requires Inv(r)
    ensures Inv(NextPop(r))
  {
    match r.consumer
    case CIdle =>
    case CLoadedRead(read) => LoadWriteKeepsInv(r);
    case CLoadedWrite(read, write) => CopyKeepsInv(r, read, write);
    case CCopied(value, read) => ReleaseKeepsInv(r);
  }

  lemma StepKeepsInv<T>(r: Ring<T>, step: Step<T>)
    requires Inv(r)
    ensures Inv(Next(r, step))
  {
    match step
    case StartPush(value) => ConsumerUnmoved(r, Next(r, step));
    case Push => PushKeepsInv(r);
    case StartPop => ProducerUnmoved(r, Next(r, step));
    case Pop => PopKeepsInv(r);
  }

  ghost function Run<T>(r: Ring<T>, steps: seq<Step<T>>): Ring<T>
    requires Inv(r)
    decreases |steps|
  {
    if steps == [] then r
    else
      StepKeepsInv(r, steps[0]);
      Run(Next(r, steps[0]), steps[1..])
  }

  lemma StepGrows<T>(r: Ring<T>, step: Step<T>)
    requires Inv(r)
    ensures r.pushed <= Next(r, step).pushed && r.popped <= Next(r, step).popped
  {
  }

  lemma {:induction false} RunKeepsInv<T>(r: Ring<T>, steps: seq<Step<T>>)
    requires Inv(r)
    ensures Inv(Run(r, steps))
    ensures r.pushed <= Run(r, steps).pushed && r.popped <= Run(r, steps).popped
    decreases |steps|
  {
    if steps != [] {
      StepKeepsInv(r, steps[0]);
      StepGrows(r, steps[0]);
      RunKeepsInv(Next(r, steps[0]), steps[1..]);
    }
  }

  lemma InitialInv<T>(r: Ring<T>)
    requires Initial(r)
    ensures Inv(r)
  {
  }

  /** A run of a ring that starts empty. */
  ghost function After<T>(r: Ring<T>, steps: seq<Step<T>>): Ring<T>
    requires Initial(r)
  {
    InitialInv(r);
    Run(r, steps)
  }

  /** Over every interleaving from an empty ring the popped values are a prefix of the
      pushed values, and what separates them is at most a capacity of values, all of
      them still in their slots. */
  lemma PoppedIsPrefix<T>(r: Ring<T>, steps: seq<Step<T>>)
    requires Initial(r)
    ensures var n := After(r, steps);
            && n.popped <= n.pushed
            && |n.pushed| <= |n.popped| + Capacity(r)
            && |n.storage| == Capacity(r)
            && forall i :: |n.popped| <= i < |n.pushed| ==> n.storage[i % Capacity(r)] == n.pushed[i]
  {
    InitialInv(r);
    RunKeepsInv(r, steps);
    RunKeepsOrder(r, steps);
  }

  lemma {:induction false} RunKeepsOrder<T>(r: Ring<T>, steps: seq<Step<T>>)
    requires Inv(r)
    ensures Run(r, steps).order == r.order
    decreases |steps|
  {
    if steps != [] {
      StepKeepsInv(r, steps[0]);
      RunKeepsOrder(Next(r, steps[0]), steps[1..]);
    }
  }

  // Refinement to a bounded FIFO.

  /** The abstract queue: what has been pushed and not yet popped. */
  ghost function Abs<T>(r: Ring<T>): seq<T>
    requires Inv(r)
  {
    r.pushed[|r.popped|..]
  }

  /** The abstract effect of a step is none, one enqueue of the producer's value into a
      queue with room, or one dequeue of the oldest value into the consumer. */
  ghost predicate FifoStep<T>(r: Ring<T>, step: Step<T>, r': Ring<T>)
    requires Inv(r) && Inv(r')
  {
    if step.Push? && r.producer.PStored? then
      |Abs(r)| < Capacity(r) && Abs(r') == Abs(r) + [r.producer.value] && r'.popped == r.popped
    else if step.Pop? && r.consumer.CCopied? then
      |Abs(r)| > 0 && r.consumer.value == Abs(r)[0] && Abs(r') == Abs(r)[1..] &&
      r'.popped == r.popped + [Abs(r)[0]]
    else
      Abs(r') == Abs(r) && r'.popped == r.popped && r'.pushed == r.pushed
  }

  lemma StepRefinesFifo<T>(r: Ring<T>, step: Step<T>)
    requires Inv(r)
    ensures Inv(Next(r, step)) && FifoStep(r, step, Next(r, step))
  {
    StepKeepsInv(r, step);
    match step
    case Push => PushRefines(r);
    case Pop => PopRefines(r);
    case _ =>
  }

  lemma PushRefines<T>(r: Ring<T>)
    requires Inv(r) && Inv(NextPush(r))
    ensures FifoStep(r, Push, NextPush(r))
  {
    if r.producer.PStored? {
      assert (r.pushed + [r.producer.value])[|r.popped|..] == r.pushed[|r.popped|..] + [r.producer.value];
    }
  }

  lemma PopRefines<T>(r: Ring<T>)
    requires Inv(r) && Inv(NextPop(r))
    ensures FifoStep(r, Pop, NextPop(r))
  {
    if r.consumer.CCopied? {
      assert r.pushed[|r.popped| + 1..] == r.pushed[|r.popped|..][1..];
    }
  }

  /** In every run from an empty ring, the next step is a step of the queue. */
  lemma RingRefinesFifo<T>(r: Ring<T>, steps: seq<Step<T>>, step: Step<T>)
    requires Initial(r)
    ensures var n, n' := After(r, steps), After(r, steps + [step]);
            Inv(n) && Inv(n') && FifoStep(n, step, n')
  {
    InitialInv(r);
    RunSnoc(r, steps, step);
    StepRefinesFifo(After(r, steps), step);
  }

  /** try_push gives up exactly when the queue was full at its load of the read counter. */
  lemma PushFailsWhenFull<T>(r: Ring<T>)
    requires Inv(r) && r.producer.PLoadedWrite?
    ensures var r1 := NextPush(r);
            Inv(r1) && (NextPush(r1).producer.PIdle? <==> |Abs(r)| == Capacity(r))
  {
    PushKeepsInv(r);
    assert StaleRead(r, r.read, |r.popped|);
    FullTest(r, r.read, |r.popped|);
  }

  /** try_pop gives up exactly when the queue was empty at its load of the write counter. */
  lemma PopFailsWhenEmpty<T>(r: Ring<T>)
    requires Inv(r) && r.consumer.CLoadedRead?
    ensures var r1 := NextPop(r);
            Inv(r1) && (NextPop(r1).consumer.CIdle? <==> Abs(r) == [])
  {
    PopKeepsInv(r);
    assert StaleWrite(r, r.write, |r.pushed|);
    EmptyTest(r, r.write, |r.pushed|);
  }

  // size(): two loads by any thread.

  function SizeOf(read: Word, write: Word, capacity: nat): (n: nat)
    ensures n <= capacity
  {
    var observed := Minus(write, read);
    if observed < capacity then observed else capacity
  }

  /** size() returns 0 exactly when a whole number of 2^64 pushes lies between the
      consumer position at the first load and the producer position at the second. */
  lemma SizeZeroExactly<T>(r: Ring<T>, seenRead: nat)
    requires Inv(r) && seenRead <= |r.popped|
    ensures SizeOf(seenRead % WORD, r.write, Capacity(r)) == 0 <==>
            (|r.pushed| - seenRead) % WORD == 0
  {
    WrapMinus(|r.pushed|, seenRead);
  }

  /** Unless 2^64 pushes pass between the two loads, 0 means the queue is empty at the
      second load and was empty ever since the first. */
  lemma SizeZeroMeansEmpty<T>(r: Ring<T>, seenRead: nat)
    requires Inv(r) && seenRead <= |r.popped| && |r.pushed| - seenRead < WORD
    ensures SizeOf(seenRead % WORD, r.write, Capacity(r)) == 0 <==>
            Abs(r) == [] && seenRead == |r.popped|
  {
    SizeZeroExactly(r, seenRead);
  }

  /** For the consumer thread itself, which owns read_, size() is the exact length. */
  lemma SizeOnConsumer<T>(r: Ring<T>)
    requires Inv(r)
    ensures SizeOf(r.read, r.write, Capacity(r)) == |Abs(r)|
  {
    assert StaleRead(r, r.read, |r.popped|);
    FullTest(r, r.read, |r.popped|);
  }

  ghost predicate Reaches<T(!new)>(r: Ring<T>, n: Ring<T>) {
    Inv(r) && Inv(n) && exists steps :: Run(r, steps) == n
  }

  lemma {:induction false} RunSnoc<T>(r: Ring<T>, steps: seq<Step<T>>, step: Step<T>)
    requires Inv(r)
    ensures Inv(Run(r, steps)) && Run(r, steps + [step]) == Next(Run(r, steps), step)
    decreases |steps|
  {
    if steps == [] {
      assert steps + [step] == [step] && [step][1..] == [];
    } else {
      assert (steps + [step])[1..] == steps[1..] + [step];
      StepKeepsInv(r, steps[0]);
      RunSnoc(Next(r, steps[0]), steps[1..], step);
    }
  }

  lemma Go<T(!new)>(r: Ring<T>, n: Ring<T>, step: Step<T>) returns (n': Ring<T>)
    requires Reaches(r, n)
    ensures n' == Next(n, step) && Reaches(r, n')
  {
    var steps :| Run(r, steps) == n;
    RunSnoc(r, steps, step);
    StepKeepsInv(n, step);
    n' := Next(n, step);
    assert Run(r, steps + [step]) == n';
  }

  /** Both threads are outside, and so many values are unread. */
  ghost predicate Resting<T>(r: Ring<T>, unread: nat) {
    Layout(r) && r.producer.PIdle? && r.consumer.CIdle? && |r.pushed| == |r.popped| + unread
  }

  lemma PushOne<T(!new)>(r: Ring<T>, n: Ring<T>, value: T) returns (n': Ring<T>)
    requires Reaches(r, n) && Resting(n, 0)
    ensures Reaches(r, n') && Resting(n', 1) && |n'.pushed| == |n.pushed| + 1 && n'.order == n.order
  {
    FullTest(n, n.read, |n.popped|);
    n' := Go(r, n, StartPush(value));
    n' := Go(r, n', Push);
    n' := Go(r, n', Push);
    n' := Go(r, n', Push);
  }

  lemma PopOne<T(!new)>(r: Ring<T>, n: Ring<T>) returns (n': Ring<T>)
    requires Reaches(r, n) && Resting(n, 1)
    ensures Reaches(r, n') && Resting(n', 0) && |n'.pushed| == |n.pushed| && n'.order == n.order
  {
    EmptyTest(n, n.write, |n.pushed|);
    n' := Go(r, n, StartPop);
    n' := Go(r, n', Pop);
    n' := Go(r, n', Pop);
    n' := Go(r, n', Pop);
  }

  lemma {:induction false} Pairs<T(!new)>(r: Ring<T>, value: T, k: nat) returns (n: Ring<T>)
    requires Inv(r) && Resting(r, 0)
    ensures Reaches(r, n) && Resting(n, 0) && |n.pushed| == |r.pushed| + k && n.order == r.order
    decreases k
  {
    if k == 0 {
      n := r;
      assert Run(r, []) == r;
    } else {
      n := Pairs(r, value, k - 1);
      n := PushOne(r, n, value);
      n := PopOne(r, n);
    }
  }

  /** An observer that loads the read counter of any ring at rest and stalls for 2^64 pushes
      can read 0 from a queue that is not empty: a run of push and pop pairs leads there. */
  lemma StalledObserver<T(!new)>(r: Ring<T>, value: T)
    requires Inv(r) && Resting(r, 0)
    ensures exists n: Ring<T> ::
              Reaches(r, n) && |Abs(n)| == 1 && SizeOf(r.read, n.write, Capacity(n)) == 0
  {
    var n := Pairs(r, value, WORD - 1);
    n := PushOne(r, n, value);
    WrapMinus(|n.pushed|, |r.popped|);
    assert (|n.pushed| - |r.popped|) % WORD == 0 && |Abs(n)| == 1;
  }

  // The same ring, as the object the writer and the producer share.

  class Queue<T(0)> {
    const order: Order
    const storage: array<T>
    var write: Word
    var read: Word
    ghost var pushed: seq<T>
    ghost var popped: seq<T>

    ghost predicate Valid()
      reads this, storage
    {
      Layout(Ring(order, storage[..], write, read, PIdle, CIdle, pushed, popped))
    }

    ghost function Contents(): seq<T>
      reads this, storage
      requires Valid()
    {
      pushed[|popped|..]
    }

    constructor (order: Order)
      ensures Valid() && fresh(storage) && Contents() == [] && this.order == order
    {
      this.order := order;
      storage := new T[Pow2(order)];
      write, read := 0, 0;
      pushed, popped := [], [];
    }

    ghost function AsRing(p: Producer<T>): Ring<T>
      reads this, storage
    {
      Ring(order, storage[..], write, read, p, CIdle, pushed, popped)
    }

    method TryPush(value: T) returns (ok: bool)
      requires Valid()
      modifies this, storage
      ensures Valid()
      ensures ok <==> |old(Contents())| < Pow2(order)
      ensures Contents() == if ok then old(Contents()) + [value] else old(Contents())
    {
      ghost var r := AsRing(PLoadedRead(value, write, read));
      assert StaleRead(r, read, |popped|);
      FullTest(r, read, |popped|);
      if Minus(write, read) >= storage.Length {
        return false;
      }
      StoreKeepsUnread(r, value, write, read);
      storage[Slot(write, order)] := value;
      assert AsRing(PStored(value, write)) == NextPush(r);
      PublishKeepsInv(NextPush(r));
      write := Succ(write);
      pushed := pushed + [value];
      assert AsRing(PIdle) == NextPush(NextPush(r));
      return true;
    }

    method TryPop() returns (value: T, ok: bool)
      requires Valid()
      modifies this
      ensures Valid()
      ensures ok <==> old(Contents()) != []
      ensures ok ==> value == old(Contents())[0] && Contents() == old(Contents())[1..]
      ensures !ok ==> Contents() == old(Contents())
    {
      ghost var r := AsRing(PIdle);
      assert StaleWrite(r, write, |pushed|);
      EmptyTest(r, write, |pushed|);
      if read == write {
        return *, false;
      }
      SlotOfCount(|popped|, order);
      WrapSucc(|popped|);
      value := storage[Slot(read, order)];
      read := Succ(read);
      popped := popped + [value];
      return value, true;
    }
  }
}
