/** The BatchReactor facility's bookkeeping: its parameters with their setters and
    getters, the fuel-pair deque, the queue of orders waiting for the tock, and
    copying one reactor from another. */
module BatchReactors {

  /** Isotopic compositions (IsoVector) are opaque to this model. */
  datatype IsoVector = IsoVector(handle: nat)

  /** Recipe: a commodity name with its isotopics; FuelPair: (input, output). */
  datatype Recipe = Recipe(commodity: string, isotopics: IsoVector)
  datatype FuelPair = FuelPair(input: Recipe, output: Recipe)

  /** A message is modelled by its supplier's identity and an opaque body. */
  datatype Message = Message(supplier: object, body: nat)

  /** The CycException thrown by receiveMessage. */
  datatype Outcome = Pass | Fail(error: string)

  /** A C++ double: a finite value (rounding is not modelled) or one of the
      non-finite results of a division by zero. */
  datatype Double = Finite(value: real) | PosInfinity | NegInfinity | NaN

  /** x / n with n an int converted to double: dividing by zero gives an infinity
      with the sign of x, or NaN for 0 / 0, and non-finite operands propagate. */
  function DivideByInt(x: Double, n: int): (r: Double)
    ensures n != 0 && x.Finite? ==> r == Finite(x.value / n as real)
    ensures n == 0 && x.Finite? ==> (r.NaN? <==> x.value == 0.0)
    ensures n == 0 && x.Finite? && x.value > 0.0 ==> r == PosInfinity
    ensures n == 0 && x.Finite? && x.value < 0.0 ==> r == NegInfinity
    ensures x.PosInfinity? || x.NegInfinity? ==> (r.PosInfinity? <==> (x.PosInfinity? <==> n >= 0))
    ensures x.PosInfinity? || x.NegInfinity? ==> r.PosInfinity? || r.NegInfinity?
    ensures x.NaN? ==> r.NaN?
  {
    match x
    case Finite(v) =>
      if n != 0 then Finite(v / n as real)
      else if v > 0.0 then PosInfinity
      else if v < 0.0 then NegInfinity
      else NaN
    case PosInfinity => if n >= 0 then PosInfinity else NegInfinity
    case NegInfinity => if n >= 0 then NegInfinity else PosInfinity
    case NaN => NaN
  }

  /** A std::deque held by pointer, so that two reactors can share one. */
  class Deque<T> {
    var items: seq<T>

    constructor ()
      ensures items == []
    {
      items := [];
    }

    method PushFront(x: T)
      modifies this
      ensures items == [x] + old(items)
    {
      items := [x] + items;
    }

    method PushBack(x: T)
      modifies this
      ensures items == old(items) + [x]
    {
      items := items + [x];
    }

    function Front(): (x: T)
      requires items != []
      reads this
      ensures x == items[0]
    {
      items[0]
    }
  }

  /** A material buffer, opaque here: only its identity matters. */
  class MatBuff {
    constructor () { }
  }

  class BatchReactor {
    var cycleLength: int
    var lifetime: int
    var batchesPerCore: int
    var coreLoading: Double
    var batchLoading: Double
    var inRecipe: IsoVector
    var outRecipe: IsoVector
    var preCore: MatBuff
    var inCore: MatBuff
    var postCore: MatBuff
    var fuelPairs: Deque<FuelPair>
    var ordersWaiting: Deque<Message>

    /** BatchReactor() { init(); }: the parameters are left indeterminate. */
    constructor ()
      ensures fresh(preCore) && fresh(inCore) && fresh(postCore)
      ensures fresh(fuelPairs) && fresh(ordersWaiting)
      ensures fuelPairs.items == [] && ordersWaiting.items == []
    {
      preCore := new MatBuff();
      inCore := new MatBuff();
      postCore := new MatBuff();
      ordersWaiting := new Deque<Message>();
      fuelPairs := new Deque<FuelPair>();
    }

    /** init(): allocates new, empty buffers and deques. */
    method Init()
      modifies this`preCore, this`inCore, this`postCore, this`ordersWaiting, this`fuelPairs
      ensures fresh(preCore) && fresh(inCore) && fresh(postCore)
      ensures fresh(fuelPairs) && fresh(ordersWaiting)
      ensures fuelPairs.items == [] && ordersWaiting.items == []
    {
      preCore := new MatBuff();
      inCore := new MatBuff();
      postCore := new MatBuff();
      ordersWaiting := new Deque<Message>();
      fuelPairs := new Deque<FuelPair>();
    }

    method SetCycleLength(l: int)
      modifies this`cycleLength
      ensures CycleLength() == l
    {
      cycleLength := l;
    }

    function CycleLength(): (r: int)
      reads this
      ensures r == cycleLength
    {
      cycleLength
    }

    method SetCoreLoading(size: Double)
      modifies this`coreLoading
      ensures CoreLoading() == size
    {
      coreLoading := size;
    }

    function CoreLoading(): (r: Double)
      reads this
      ensures r == coreLoading
    {
      coreLoading
    }

    method SetNBatches(n: int)
      modifies this`batchesPerCore
      ensures NBatches() == n
    {
      batchesPerCore := n;
    }

    function NBatches(): (r: int)
      reads this
      ensures r == batchesPerCore
    {
      batchesPerCore
    }

    method SetBatchLoading(size: Double)
      modifies this`batchLoading
      ensures BatchLoading() == size
    {
      batchLoading := size;
    }

    function BatchLoading(): (r: Double)
      reads this
      ensures r == batchLoading
    {
      batchLoading
    }

    method SetLifetime(l: int)
      modifies this`lifetime
      ensures Lifetime() == l
    {
      lifetime := l;
    }

    function Lifetime(): (r: int)
      reads this
      ensures r == lifetime
    {
      lifetime
    }

    method SetInRecipe(r: IsoVector)
      modifies this`inRecipe
      ensures InRecipe() == r
    {
      inRecipe := r;
    }

    function InRecipe(): (r: IsoVector)
      reads this
      ensures r == inRecipe
    {
      inRecipe
    }

    method SetOutRecipe(r: IsoVector)
      modifies this`outRecipe
      ensures OutRecipe() == r
    {
      outRecipe := r;
    }

    function OutRecipe(): (r: IsoVector)
      reads this
      ensures r == outRecipe
    {
      outRecipe
    }

    /** copy(src): takes src's parameters, recomputes the batch loading from them
        and shares src's fuel-pair deque (the pointer is copied, not the deque). */
    method Copy(src: BatchReactor)
      modifies this`cycleLength, this`lifetime, this`coreLoading, this`batchesPerCore,
               this`batchLoading, this`inRecipe, this`outRecipe, this`fuelPairs
      ensures cycleLength == old(src.cycleLength) && lifetime == old(src.lifetime)
      ensures coreLoading == old(src.coreLoading) && batchesPerCore == old(src.batchesPerCore)
      ensures batchLoading == DivideByInt(old(src.coreLoading), old(src.batchesPerCore))
      ensures inRecipe == old(src.inRecipe) && outRecipe == old(src.outRecipe)
      ensures fuelPairs == old(src.fuelPairs)
    {
      SetCycleLength(src.CycleLength());
      SetLifetime(src.Lifetime());
      SetCoreLoading(src.CoreLoading());
      SetNBatches(src.NBatches());
      SetBatchLoading(DivideByInt(CoreLoading(), NBatches()));
      SetInRecipe(src.InRecipe());
      SetOutRecipe(src.OutRecipe());
      fuelPairs := src.fuelPairs;
    }

    /** receiveMessage(msg): an order this reactor supplies is filed at the front of
        the waiting orders; any other message is refused with an exception. */
    method ReceiveMessage(msg: Message) returns (outcome: Outcome)
      modifies ordersWaiting
      ensures outcome.Pass? <==> msg.supplier == this
      ensures outcome.Pass? ==> ordersWaiting.items == [msg] + old(ordersWaiting.items)
      ensures outcome.Fail? ==> ordersWaiting.items == old(ordersWaiting.items)
      ensures outcome.Fail? ==> outcome.error == "BatchReactor is not the supplier of this msg."
    {
      if msg.supplier == this {
        ordersWaiting.PushFront(msg);
        outcome := Pass;
      } else {
        outcome := Fail("BatchReactor is not the supplier of this msg.");
      }
    }

    /** addFuelPair: appends ((incommod, inFuel), (outcommod, outFuel)). */
    method AddFuelPair(incommod: string, inFuel: IsoVector, outcommod: string, outFuel: IsoVector)
      modifies fuelPairs
      ensures fuelPairs.items ==
        old(fuelPairs.items) + [FuelPair(Recipe(incommod, inFuel), Recipe(outcommod, outFuel))]
      ensures old(fuelPairs.items) != [] ==> InCommod() == old(InCommod()) && OutCommod() == old(OutCommod())
    {
      fuelPairs.PushBack(FuelPair(Recipe(incommod, inFuel), Recipe(outcommod, outFuel)));
    }

    /** inCommod(): the input commodity of the front fuel pair (undefined on an
        empty deque, hence required non-empty). */
    function InCommod(): (c: string)
      requires fuelPairs.items != []
      reads this, fuelPairs
      ensures c == fuelPairs.items[0].input.commodity
    {
      fuelPairs.Front().input.commodity
    }

    /** outCommod(): the output commodity of the front fuel pair. */
    function OutCommod(): (c: string)
      requires fuelPairs.items != []
      reads this, fuelPairs
      ensures c == fuelPairs.items[0].output.commodity
    {
      fuelPairs.Front().output.commodity
    }
  }

  // ---------------------------------------------------------------------------
  // What callers can rely on

  /** Orders are filed most-recent-first: after accepting m1 then m2 the front is m2. */
  method OrdersMostRecentFirst(b1: nat, b2: nat) returns (r: BatchReactor)
    ensures r.ordersWaiting.items == [Message(r, b2), Message(r, b1)]
  {
    r := new BatchReactor();
    var o1 := r.ReceiveMessage(Message(r, b1));
    var o2 := r.ReceiveMessage(Message(r, b2));
  }

  /** A message whose supplier is another object is refused and files nothing. */
  method ForeignOrderRefused(other: object, b: nat) returns (outcome: Outcome, r: BatchReactor)
    ensures outcome.Fail? && r.ordersWaiting.items == []
  {
    r := new BatchReactor();
    outcome := r.ReceiveMessage(Message(other, b));
  }

  /** After copy, a fuel pair added through the copy is visible from the source. */
  method CopySharesFuelPairs(inc: string, inFuel: IsoVector, outc: string, outFuel: IsoVector)
    returns (src: BatchReactor, dst: BatchReactor)
    ensures src.fuelPairs == dst.fuelPairs
    ensures src.fuelPairs.items == [FuelPair(Recipe(inc, inFuel), Recipe(outc, outFuel))]
    ensures src.InCommod() == inc && dst.OutCommod() == outc
  {
    src := new BatchReactor();
    dst := new BatchReactor();
    dst.Copy(src);
    dst.AddFuelPair(inc, inFuel, outc, outFuel);
  }

  /** The front pair fixes the commodities: later pairs do not change them. */
  method FrontPairFixesCommodities(first: FuelPair, later: FuelPair) returns (r: BatchReactor)
    ensures r.fuelPairs.items == [first, later]
    ensures r.InCommod() == first.input.commodity && r.OutCommod() == first.output.commodity
  {
    r := new BatchReactor();
    r.AddFuelPair(first.input.commodity, first.input.isotopics, first.output.commodity, first.output.isotopics);
    r.AddFuelPair(later.input.commodity, later.input.isotopics, later.output.commodity, later.output.isotopics);
  }

  /** copy recomputes the batch loading as core loading over batch count; with no
      batches the double division yields an infinity, or NaN for an empty core. */
  method CopiedBatchLoading(core: real, n: int) returns (dst: BatchReactor)
    ensures n != 0 ==> dst.BatchLoading() == Finite(core / n as real)
    ensures n == 0 && core > 0.0 ==> dst.BatchLoading() == PosInfinity
    ensures n == 0 && core == 0.0 ==> dst.BatchLoading() == NaN
  {
    var src := new BatchReactor();
    src.SetCoreLoading(Finite(core));
    src.SetNBatches(n);
    dst := new BatchReactor();
    dst.Copy(src);
  }
}
