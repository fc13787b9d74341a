/** The memory bus (6502Emu/Bus.cs): byte and word accesses routed to the first
    registered subscriber whose inclusive range holds the address. */
module MemoryBus {
  import opened Types
  import opened MemoryDevice

  /** A registration on the bus: an inclusive address range and the device that
      serves it (the StartAddress/EndAddress/Read/Write shape of IBusSubscriber). The
      range is the device's own range as it stood when the device was registered. */
  datatype Subscriber = Subscriber(StartAddress: Word, EndAddress: Word, Device: Memory64k)
  {
    predicate Owns(address: int)
    {
      StartAddress <= address && EndAddress >= address
    }
  }

  /** A Memory64k registers with its own range, which holds every address. */
  function Subscription(device: Memory64k): (s: Subscriber)
    ensures s.Device == device
    ensures forall a: Word :: s.Owns(a)
  {
    Subscriber(device.StartAddress, device.EndAddress, device)
  }

  /** `++address` on a 16-bit address: 0xFFFF wraps to 0x0000. */
  function NextAddress(address: Word): (r: Word)
    ensures address < 0xFFFF ==> r == address + 1
    ensures address == 0xFFFF ==> r == 0x0000
  {
    (address + 1) % 0x10000
  }

  /** `(byte)(data & 0xFF)` */
  function LowByte(data: Word): (r: Byte)
    ensures data == HighByte(data) * 0x100 + r       // what the high byte leaves over
  {
    data % 0x100
  }

  /** `(byte)(data >> 8)` */
  function HighByte(data: Word): (r: Byte)
    ensures r * 0x100 <= data < r * 0x100 + 0x100    // the 256-byte page holding data
  {
    data / 0x100
  }

  /** `(ushort)(low | high << 8)`: the little-endian composition of two bytes. */
  function ComposeWord(low: Byte, high: Byte): (r: Word)
    ensures r % 0x100 == low && r / 0x100 == high    // the bytes sit apart, low first
  {
    low + high * 0x100
  }

  /** Splitting a word into its two bytes and composing them again gives the word. */
  lemma WordRoundTrip(data: Word)
    ensures ComposeWord(LowByte(data), HighByte(data)) == data
  {
  }

  /** Composing two bytes and splitting the word gives the bytes back. */
  lemma BytesRoundTrip(low: Byte, high: Byte)
    ensures LowByte(ComposeWord(low, high)) == low
    ensures HighByte(ComposeWord(low, high)) == high
  {
  }

  /** The position of the first subscriber, in registration order, whose range holds
      `address` (FirstOrDefault over the subscriber list). */
  function FirstOwner(subscribers: seq<Subscriber>, address: Word): (k: Option<nat>)
    ensures k.Some? ==> k.value < |subscribers| && subscribers[k.value].Owns(address)
    ensures k.Some? ==> forall j :: 0 <= j < k.value ==> !subscribers[j].Owns(address)
    ensures k.None? <==> forall j :: 0 <= j < |subscribers| ==> !subscribers[j].Owns(address)
  {
    if |subscribers| == 0 then None
    else if subscribers[0].Owns(address) then Some(0)
    else match FirstOwner(subscribers[1..], address)
      case None => None
      case Some(k) => Some(k + 1)
  }

  /** Registering one more subscriber never takes an address away from an earlier
      one; the new one serves only addresses nobody owned before. */
  lemma {:induction false} FirstOwnerAppend(subscribers: seq<Subscriber>, s: Subscriber, address: Word)
    ensures FirstOwner(subscribers + [s], address) ==
      match FirstOwner(subscribers, address)
      case Some(k) => Some(k)
      case None => if s.Owns(address) then Some(|subscribers|) else None
  {
    if |subscribers| > 0 && !subscribers[0].Owns(address) {
      assert (subscribers + [s])[1..] == subscribers[1..] + [s];
      FirstOwnerAppend(subscribers[1..], s, address);
    }
  }

  /** What the bus sees at one moment: the registered subscribers and the contents of
      every device's cell array. Keying the contents by array means that two
      registrations of one device share their cells. */
  datatype BusState = BusState(subscribers: seq<Subscriber>, cells: map<array<Byte>, seq<Byte>>)
  {
    ghost predicate Valid()
    {
      forall s :: s in subscribers ==>
        s.Device.Memory in cells && |cells[s.Device.Memory]| == MemorySize
    }

    /** Some subscriber's range holds the address. */
    predicate Owned(address: Word)
    {
      FirstOwner(subscribers, address).Some?
    }

    /** The cells of the subscriber at position k. */
    function CellsOf(k: nat): (c: seq<Byte>)
      requires Valid() && k < |subscribers|
      ensures |c| == MemorySize
    {
      assert subscribers[k] in subscribers;
      cells[subscribers[k].Device.Memory]
    }

    /** Read8: the owner's cell, or 0x00 when nothing owns the address. */
    function Read8(address: Word): (r: Byte)
      requires Valid()
    {
      match FirstOwner(subscribers, address)
      case None => 0x00
      case Some(k) => CellsOf(k)[address]
    }

    /** Read16: both bytes come from the subscriber that owns `address`, the high byte
        from its next cell, whether or not its range holds that next address. */
    function Read16(address: Word): (r: Word)
      requires Valid()
    {
      match FirstOwner(subscribers, address)
      case None => 0x0000
      case Some(k) => ComposeWord(CellsOf(k)[address], CellsOf(k)[NextAddress(address)])
    }

    /** Write8: the owner's cell takes the byte; with no owner nothing changes. */
    function Write8(address: Word, data: Byte): (b: BusState)
      requires Valid()
      ensures b.Valid() && b.subscribers == subscribers && b.cells.Keys == cells.Keys
    {
      match FirstOwner(subscribers, address)
      case None => this
      case Some(k) =>
        var target := subscribers[k].Device.Memory;
        this.(cells := cells[target := CellsOf(k)[address := data]])
    }

    /** Write16: low byte at `address`, high byte at the next address, both into the
        subscriber that owns `address`; with no owner nothing changes. */
    function Write16(address: Word, data: Word): (b: BusState)
      requires Valid()
      ensures b.Valid() && b.subscribers == subscribers && b.cells.Keys == cells.Keys
    {
      match FirstOwner(subscribers, address)
      case None => this
      case Some(k) =>
        var target := subscribers[k].Device.Memory;
        var written := CellsOf(k)[address := LowByte(data)][NextAddress(address) := HighByte(data)];
        this.(cells := cells[target := written])
    }
  }

  /** An address no subscriber claims reads as 0x00, and as 0x0000 for a word. */
  lemma ReadsUnowned(b: BusState, address: Word)
    requires b.Valid() && !b.Owned(address)
    ensures b.Read8(address) == 0x00 && b.Read16(address) == 0x0000
  {
  }

  /** Reads are served by the first subscriber in registration order whose range holds
      the address: its cell for a byte, its cell and the next one for a word. */
  lemma ReadsFromFirstOwner(b: BusState, address: Word, k: nat)
    requires b.Valid() && k < |b.subscribers| && b.subscribers[k].Owns(address)
    requires forall j :: 0 <= j < k ==> !b.subscribers[j].Owns(address)
    ensures b.Read8(address) == b.CellsOf(k)[address]
    ensures b.Read16(address) == ComposeWord(b.CellsOf(k)[address], b.CellsOf(k)[NextAddress(address)])
  {
  }

  /** A byte written through the bus reads back, at any owned address (0x0000 and
      0xFFFF included); at an unowned address the write is dropped and the read is 0. */
  lemma Read8AfterWrite8(b: BusState, address: Word, data: Byte)
    requires b.Valid()
    ensures b.Write8(address, data).Read8(address) == if b.Owned(address) then data else 0x00
    ensures !b.Owned(address) ==> b.Write8(address, data) == b
  {
  }

  /** A byte write leaves every other address reading as before, whichever devices
      the two addresses belong to. */
  lemma Write8Elsewhere(b: BusState, address: Word, data: Byte, other: Word)
    requires b.Valid() && other != address
    ensures b.Write8(address, data).Read8(other) == b.Read8(other)
    ensures b.Write8(address, data).Read16(other) == b.Read16(other) || NextAddress(other) == address
  {
  }

  /** Where the two bytes of a word write land: in the device owning `address`, its
      cell `address` takes the low byte and cell (address + 1) mod 0x10000 the high
      byte, even when the next address is outside the owner's range; no other cell of
      any device changes. With no owner, nothing is written. */
  lemma Write16Placement(b: BusState, address: Word, data: Word)
    requires b.Valid()
    ensures !b.Owned(address) ==> b.Write16(address, data) == b
    ensures b.Owned(address) ==>
      var k := FirstOwner(b.subscribers, address).value;
      var target := b.subscribers[k].Device.Memory;
      var after := b.Write16(address, data).cells;
      after[target][address] == LowByte(data) &&
      after[target][NextAddress(address)] == HighByte(data) &&
      (forall arr, i :: arr in b.cells && 0 <= i < |b.cells[arr]| &&
          !(arr == target && (i == address || i == NextAddress(address)))
          ==> i < |after[arr]| && after[arr][i] == b.cells[arr][i])
  {
  }

  /** A word written through the bus reads back as the same word, including at 0xFFFF
      where the high byte wraps to cell 0x0000; unowned, the read gives 0. */
  lemma Read16AfterWrite16(b: BusState, address: Word, data: Word)
    requires b.Valid()
    ensures b.Write16(address, data).Read16(address) == if b.Owned(address) then data else 0x0000
  {
    if b.Owned(address) {
      WordRoundTrip(data);
    }
  }

  /** A word write leaves every byte and word read that shares no address with it as
      before. */
  lemma Write16Elsewhere(b: BusState, address: Word, data: Word, other: Word)
    requires b.Valid()
    requires other != address && other != NextAddress(address) && NextAddress(other) != address
    ensures b.Write16(address, data).Read8(other) == b.Read8(other)
    ensures b.Write16(address, data).Read16(other) == b.Read16(other)
  {
  }

  /** When one subscriber is the first owner of both `address` and the next address
      (always so on flat memory), a word read is the composition of two byte reads. */
  lemma Read16IsTwoReads(b: BusState, address: Word)
    requires b.Valid()
    requires FirstOwner(b.subscribers, address) == FirstOwner(b.subscribers, NextAddress(address))
    ensures b.Read16(address) == ComposeWord(b.Read8(address), b.Read8(NextAddress(address)))
  {
  }

  /** On a bus whose first subscriber owns everything, a word written at 0xFFFF puts
      its low byte at 0xFFFF and its high byte at 0x0000. */
  lemma WordWriteWrapsAtTop(b: BusState, data: Word)
    requires b.Valid() && |b.subscribers| > 0
    requires forall a: Word :: b.subscribers[0].Owns(a)
    ensures b.Write16(0xFFFF, data).Read8(0xFFFF) == LowByte(data)
    ensures b.Write16(0xFFFF, data).Read8(0x0000) == HighByte(data)
  {
    assert b.subscribers[0].Owns(0xFFFF) && b.subscribers[0].Owns(0x0000);
  }

  class Bus {
    /** Registered subscribers, in registration order. */
    var Subscribers: seq<Subscriber>

    /** The cells of every registered device, keyed by its cell array. */
    ghost var Cells: map<array<Byte>, seq<Byte>>

    ghost predicate Valid()
      reads this, Cells.Keys
    {
      (forall s :: s in Subscribers ==> s.Device.Valid() && s.Device.Memory in Cells) &&
      (forall arr :: arr in Cells ==> Cells[arr] == arr[..])
    }

    /** The cell arrays the bus can reach. */
    ghost function Arrays(): set<array<Byte>>
      reads this
    {
      Cells.Keys
    }

    /** The bus's current state as a value. */
    ghost function State(): (b: BusState)
      requires Valid()
      reads this, Cells.Keys
      ensures b.Valid() && b.subscribers == Subscribers
    {
      BusState(Subscribers, Cells)
    }

    constructor ()
      ensures Valid() && Subscribers == [] && Arrays() == {}
    {
      Subscribers := [];
      Cells := map[];
    }

    /** Appends the subscriber after all earlier ones; ranges are not checked, so an
        overlapping range only serves addresses no earlier subscriber owns. */
    method AddSubscriber(subscriber: Subscriber)
      requires Valid() && subscriber.Device.Valid()
      modifies this
      ensures Valid() && Subscribers == old(Subscribers) + [subscriber]
      ensures Arrays() == old(Arrays()) + {subscriber.Device.Memory}
      ensures forall a: Word :: old(State()).Owned(a) ==> State().Read8(a) == old(State()).Read8(a)
    {
      Subscribers := Subscribers + [subscriber];
      Cells := Cells[subscriber.Device.Memory := subscriber.Device.Memory[..]];
      forall a: Word | old(State()).Owned(a) ensures State().Read8(a) == old(State()).Read8(a) {
        FirstOwnerAppend(old(Subscribers), subscriber, a);
      }
    }

    /** The first subscriber whose range holds `address`, if any. */
    function GetSubscriber(address: Word): (s: Option<Subscriber>)
      reads this
      ensures s.Some? <==> exists i :: 0 <= i < |Subscribers| && Subscribers[i].Owns(address)
      ensures s.Some? ==> exists i :: 0 <= i < |Subscribers| && Subscribers[i] == s.value &&
                            s.value.Owns(address) &&
                            forall j :: 0 <= j < i ==> !Subscribers[j].Owns(address)
    {
      match FirstOwner(Subscribers, address)
      case None => None
      case Some(k) => Some(Subscribers[k])
    }

    method Write8(address: Word, data: Byte)
      requires Valid()
      modifies this`Cells, Arrays()
      ensures Valid() && Arrays() == old(Arrays())
      ensures State() == old(State()).Write8(address, data)
    {
      var subscriber := GetSubscriber(address);
      if subscriber.Some? {
        var device := subscriber.value.Device;
        assert subscriber.value in Subscribers;
        device.Write(address, data);
        Cells := Cells[device.Memory := device.Memory[..]];
      }
    }

    method Read8(address: Word) returns (data: Byte)
      requires Valid()
      ensures data == State().Read8(address)
    {
      var subscriber := GetSubscriber(address);
      if subscriber.None? {
        data := 0x00;
      } else {
        assert subscriber.value in Subscribers;
        data := subscriber.value.Device.Read(address);
      }
    }

    method Write16(address: Word, data: Word)
      requires Valid()
      modifies this`Cells, Arrays()
      ensures Valid() && Arrays() == old(Arrays())
      ensures State() == old(State()).Write16(address, data)
    {
      var subscriber := GetSubscriber(address);
      if subscriber.None? {
        return;
      }
      var device := subscriber.value.Device;
      assert subscriber.value in Subscribers;
      device.Write(address, LowByte(data));
      device.Write(NextAddress(address), HighByte(data));
      Cells := Cells[device.Memory := device.Memory[..]];
    }

    method Read16(address: Word) returns (data: Word)
      requires Valid()
      ensures data == State().Read16(address)
    {
      var subscriber := GetSubscriber(address);
      if subscriber.None? {
        return 0x0000;
      }
      assert subscriber.value in Subscribers;
      var low := subscriber.value.Device.Read(address);
      var high := subscriber.value.Device.Read(NextAddress(address));
      data := ComposeWord(low, high);
    }
  }

  /** The bus as the program wires it, one fresh Memory64k registered with its own
      range: a word written at 0xFFFF puts its low byte at 0xFFFF and its high byte at
      0x0000, and reads back whole. */
  method FlatMemoryWordWrap(data: Word) returns (low: Byte, high: Byte, word: Word)
    ensures low == LowByte(data) && high == HighByte(data) && word == data
  {
    var device := new Memory64k();
    var bus := new Bus();
    bus.AddSubscriber(Subscription(device));
    ghost var before := bus.State();
    bus.Write16(0xFFFF, data);
    WordWriteWrapsAtTop(before, data);
    Read16AfterWrite16(before, 0xFFFF, data);
    low := bus.Read8(0xFFFF);
    high := bus.Read8(0x0000);
    word := bus.Read16(0xFFFF);
  }
}
