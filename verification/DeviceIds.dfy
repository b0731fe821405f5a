/** Device ids. An id is a base number, shared by the USB and the Wi-Fi appearance of one
    device, and a low bit that is set for Wi-Fi. */
module DeviceIds {
  const MAXID: int := 0x7fff_ffff / 2

  function Base(id: int): int { id / 2 }

  /** The low bit says how the device is connected. */
  function Tagged(id: int, wifi: bool): (tagged: int)
    requires id % 2 == 0
    ensures Base(tagged) == Base(id) && (tagged % 2 == 1 <==> wifi)
  {
    if wifi then id + 1 else id
  }

  /** One pass over the bases in the order the device set happens to give them. */
  function Scan(order: seq<int>, newid: int): int {
    if order == [] then newid
    else Scan(order[1..], if order[0] == newid then newid + 1 else newid)
  }

  lemma {:induction false} ScanMisses(order: seq<int>, newid: int)
    requires newid !in order
    ensures Scan(order, newid) == newid
  {
    if order != [] {
      assert order[0] in order;
      ScanMisses(order[1..], newid);
    }
  }

  lemma {:induction false} ScanHitsOnce(order: seq<int>, newid: int)
    requires newid in order && newid + 1 !in order
    ensures Scan(order, newid) == newid + 1
  {
    if order[0] == newid {
      ScanMisses(order[1..], newid + 1);
    } else {
      assert order == [order[0]] + order[1..];
      ScanHitsOnce(order[1..], newid);
    }
  }

  lemma {:induction false} ScanJoin(a: seq<int>, b: seq<int>, newid: int)
    ensures Scan(a + b, newid) == Scan(b, Scan(a, newid))
  {
    if a == [] {
      assert a + b == b;
    } else {
      assert (a + b)[1..] == a[1..] + b;
      ScanJoin(a[1..], b, if a[0] == newid then newid + 1 else newid);
    }
  }

  /** One more base visited. */
  lemma ScanStep(order: seq<int>, b: int, newid: int)
    ensures Scan(order + [b], newid) == if b == Scan(order, newid) then b + 1 else Scan(order, newid)
  {
    ScanJoin(order, [b], newid);
    assert [b][1..] == [];
  }

  /** The same bases with every newid moved to the end. */
  function Deferred(order: seq<int>, newid: int): seq<int> {
    if order == [] then []
    else if order[0] == newid then Deferred(order[1..], newid) + [newid]
    else [order[0]] + Deferred(order[1..], newid)
  }

  /** Deferring is a reordering after which the pass ends one past newid, used or not. */
  lemma {:induction false} DeferredEndsNext(order: seq<int>, newid: int)
    ensures multiset(Deferred(order, newid)) == multiset(order)
    ensures Scan(Deferred(order, newid), newid) == if newid in order then newid + 1 else newid
  {
    if order != [] {
      assert order == [order[0]] + order[1..];
      DeferredEndsNext(order[1..], newid);
      var rest := Deferred(order[1..], newid);
      if order[0] == newid {
        ScanStep(rest, newid, newid);
      } else {
        assert ([order[0]] + rest)[1..] == rest;
      }
    }
  }

  /** The pass yields a base not in use, whatever the order the set is visited in, exactly if
      newid or the number after it is not in use. */
  lemma ScanSafeExactly(bases: seq<int>, newid: int)
    ensures (forall order :: multiset(order) == multiset(bases) ==> Scan(order, newid) !in bases)
        <==> newid !in bases || newid + 1 !in bases
  {
    if newid !in bases || newid + 1 !in bases {
      forall order | multiset(order) == multiset(bases)
        ensures Scan(order, newid) !in bases
      {
        assert forall b :: b in order <==> b in multiset(order);
        assert forall b :: b in bases <==> b in multiset(bases);
        if newid in bases {
          ScanHitsOnce(order, newid);
        } else {
          ScanMisses(order, newid);
        }
      }
    } else {
      DeferredEndsNext(bases, newid);
      assert multiset(Deferred(bases, newid)) == multiset(bases);
    }
  }

  class Device {
    const serial: string
    const wifi: bool
    var id: int

    constructor (serial: string, wifi: bool)
      ensures this.serial == serial && this.wifi == wifi && id == 0
    {
      this.serial, this.wifi, id := serial, wifi, 0;
    }
  }

  /** No device of the set has number x. */
  ghost predicate Free(devices: set<Device>, x: int)
    reads devices
  {
    forall d :: d in devices ==> Base(d.id) != x
  }

  class Muxer {
    var newid: int
    var devices: set<Device>

    /** Live ids are in range and odd exactly for Wi-Fi; one live device per serial and type;
        bases are shared exactly within a serial. */
    ghost predicate Valid()
      reads this, devices
    {
      && 1 <= newid <= MAXID
      && (forall d :: d in devices ==> 1 <= Base(d.id) <= MAXID && (d.id % 2 == 1 <==> d.wifi))
      && (forall d, e :: d in devices && e in devices && d != e ==> d.serial != e.serial || d.wifi != e.wifi)
      && (forall d, e :: d in devices && e in devices && d != e ==> (Base(d.id) == Base(e.id) <==> d.serial == e.serial))
    }

    /** The counter has passed every number in use. */
    ghost predicate Ahead()
      reads this, devices
    {
      forall d :: d in devices ==> Base(d.id) <= newid
    }

    ghost predicate Known(serial: string)
      reads this
    {
      exists d :: d in devices && d.serial == serial
    }

    constructor ()
      ensures Valid() && Ahead() && devices == {} && newid == 1
    {
      newid, devices := 1, {};
    }

    /** No two live devices have the same id. */
    lemma IdsDistinct(d: Device, e: Device)
      requires Valid() && d in devices && e in devices && d.id == e.id
      ensures d == e
    {
    }

    method IdForDevice(serial: string, wifi: bool) returns (ret: int)
      requires Valid()
      ensures ret == 0 <==> forall d :: d in devices ==> d.serial != serial || d.wifi != wifi
      ensures forall d :: d in devices && d.serial == serial && d.wifi == wifi ==> ret == d.id
    {
      ret := 0;
      var rest := devices;
      while rest != {}
        invariant rest <= devices && ret == 0
        invariant forall d :: d in devices - rest ==> d.serial != serial || d.wifi != wifi
        decreases |rest|
      {
        var dev :| dev in rest;
        rest := rest - {dev};
        if dev.wifi == wifi && dev.serial == serial {
          ret := dev.id;
          break;
        }
      }
    }

    /** The retryID loop. Each pass visits every device once, in any order; a pass in which
        the counter exceeds MAXID is given up and started again from 1. order is the order of
        the last pass, from the number it started with. */
    method PassOverDevices() returns (ghost order: seq<int>, ghost from: int, wrapped: bool)
      requires 1 <= newid <= MAXID && |devices| < MAXID
      modifies this`newid
      ensures forall b :: b in order <==> !Free(devices, b)
      ensures from == if wrapped then 1 else old(newid)
      ensures newid == Scan(order, from) && 1 <= newid <= MAXID
      ensures wrapped ==> !Free(devices, MAXID)
    {
      wrapped := false;
      from := newid;
      order := [];
      var rest := devices;
      while rest != {}
        invariant rest <= devices && 1 <= newid <= MAXID
        invariant from == (if wrapped then 1 else old(newid)) && newid == Scan(order, from)
        invariant newid + |rest| <= from + |devices|
        invariant forall d :: d in devices && d !in rest ==> Base(d.id) in order
        invariant forall b :: b in order ==> !Free(devices, b)
        invariant wrapped ==> !Free(devices, MAXID)
        decreases !wrapped, |rest|
      {
        var odev :| odev in rest;
        ScanStep(order, Base(odev.id), from);
        order := order + [Base(odev.id)];
        rest := rest - {odev};
        if odev.id / 2 == newid {
          newid := newid + 1;
          if newid > MAXID {
            newid := 1;
            rest := devices;
            wrapped, from, order := true, 1, [];
          }
        }
      }
    }

    /** A number for a device seen for the first time. The pass starts from newid, or from 1
        after a wrap; if that number or the next one is free, the result is free. */
    method FreshBase() returns (ghost from: int)
      requires Valid() && |devices| < MAXID
      modifies this`newid
      ensures 1 <= newid <= MAXID
      ensures from == old(newid) || (from == 1 && !Free(devices, MAXID))
      ensures Free(devices, from) ==> newid == from
      ensures !Free(devices, from) && Free(devices, from + 1) ==> newid == from + 1
    {
      ghost var order;
      var wrapped;
      order, from, wrapped := PassOverDevices();
      if Free(devices, from) {
        ScanMisses(order, from);
      } else if Free(devices, from + 1) {
        ScanHitsOnce(order, from);
      }
    }

    /** The base of a live device is shared exactly by the devices with its serial. */
    lemma SharedBase(e: Device)
      requires Valid() && e in devices
      ensures forall d :: d in devices ==> (Base(d.id) == Base(e.id) <==> d.serial == e.serial)
    {
      forall d | d in devices
        ensures Base(d.id) == Base(e.id) <==> d.serial == e.serial
      {
        if d != e {
          assert Base(d.id) == Base(e.id) <==> d.serial == e.serial;
        }
      }
    }

    /** No live device has number 0, so an answer of 0 or 1 means there is none. */
    lemma NoZero(serial: string, wifi: bool, other: int)
      requires Valid()
      requires other == 0 <==> forall d :: d in devices ==> d.serial != serial || d.wifi != wifi
      requires forall d :: d in devices && d.serial == serial && d.wifi == wifi ==> other == d.id
      ensures other - other % 2 == 0 <==> forall d :: d in devices ==> d.serial != serial || d.wifi != wifi
    {
      if other != 0 {
        var e :| e in devices && e.serial == serial && e.wifi == wifi;
        assert Base(e.id) >= 1;
      }
    }

    /** The id to start from, the low bit cleared: that of the other appearance, or a fresh one. */
    method NumberFor(serial: string, wifi: bool) returns (id: int, ghost from: int)
      requires Valid() && |devices| < MAXID
      requires forall d :: d in devices ==> d.serial != serial || d.wifi != wifi
      modifies this`newid
      ensures 1 <= newid <= MAXID && id % 2 == 0 && 1 <= Base(id) <= MAXID
      ensures from == old(newid) || (from == 1 && !Free(devices, MAXID))
      ensures Known(serial) ==>
                newid == old(newid) && forall d :: d in devices ==> (Base(d.id) == Base(id) <==> d.serial == serial)
      ensures !Known(serial) ==> Base(id) == newid
      ensures !Known(serial) && Free(devices, from) ==> newid == from
      ensures !Known(serial) && !Free(devices, from) && Free(devices, from + 1) ==> newid == from + 1
    {
      hide Free;
      from := newid;
      var other := IdForDevice(serial, !wifi);
      NoZero(serial, !wifi, other);
      id := other - other % 2;
      if id == 0 {
        assert !Known(serial);
        from := FreshBase();
        id := newid * 2;
      } else {
        var e :| e in devices && e.serial == serial && e.wifi == !wifi;
        SharedBase(e);
        assert Known(serial);
      }
    }

    /** add_device up to the insertion, one call at a time: the other appearance of the device
        gives the base, otherwise a pass from newid, or from 1 after a wrap. The invariant is
        kept exactly if the number found was free, and it was, in whatever order the devices
        are visited, if the number the pass started from or the next one was. */
    method AddDevice(dev: Device) returns (ghost from: int)
      requires Valid() && dev !in devices && |devices| < MAXID
      requires forall d :: d in devices ==> d.serial != dev.serial || d.wifi != dev.wifi
      modifies this, dev
      ensures devices == old(devices) + {dev} && forall d :: d in old(devices) ==> d.id == old(d.id)
      ensures 1 <= Base(dev.id) <= MAXID && (dev.id % 2 == 1 <==> dev.wifi)
      ensures from == old(newid) || (from == 1 && !Free(old(devices), MAXID))
      ensures old(Known(dev.serial)) ==> Valid() && newid == old(newid)
      ensures !old(Known(dev.serial)) ==> Base(dev.id) == newid && (Valid() <==> Free(old(devices), newid))
      ensures !old(Known(dev.serial)) && Free(old(devices), from) ==> newid == from
      ensures !old(Known(dev.serial)) && !Free(old(devices), from) && Free(old(devices), from + 1) ==> newid == from + 1
    {
      hide Free;
      ghost var serials := Known(dev.serial);
      var id;
      id, from := NumberFor(dev.serial, dev.wifi);
      Insert(dev, Tagged(id, dev.wifi));
      if !serials {
        FreeMeans(dev, old(devices));
      }
    }

    /** Without another appearance, no number may be shared. */
    lemma FreeMeans(dev: Device, others: set<Device>)
      requires forall d :: d in others ==> d.serial != dev.serial
      ensures Free(others, Base(dev.id)) <==> forall d :: d in others ==> (Base(d.id) == Base(dev.id) <==> d.serial == dev.serial)
    {
    }

    /** Setting the id and the insertion. */
    method Insert(dev: Device, id: int)
      requires Valid() && dev !in devices && 1 <= Base(id) <= MAXID && (id % 2 == 1 <==> dev.wifi)
      requires forall d :: d in devices ==> d.serial != dev.serial || d.wifi != dev.wifi
      modifies this`devices, dev
      ensures devices == old(devices) + {dev} && dev.id == id && forall d :: d in old(devices) ==> d.id == old(d.id)
      ensures Valid() <==> forall d :: d in old(devices) ==> (Base(d.id) == Base(id) <==> d.serial == dev.serial)
    {
      dev.id := id;
      devices := devices + {dev};
    }

    /** As long as the counter is ahead and MAXID is free, adding keeps the invariant and the
        counter ahead. */
    method AddAhead(dev: Device)
      requires Valid() && Ahead() && Free(devices, MAXID)
      requires dev !in devices && |devices| < MAXID
      requires forall d :: d in devices ==> d.serial != dev.serial || d.wifi != dev.wifi
      modifies this, dev
      ensures Valid() && Ahead() && devices == old(devices) + {dev}
      ensures forall d :: d in old(devices) ==> d.id == old(d.id)
      ensures if old(Known(dev.serial)) then newid == old(newid)
              else Base(dev.id) == newid == if Free(old(devices), old(newid)) then old(newid) else old(newid) + 1
    {
      var was := newid;
      assert Free(devices, was + 1);
      ghost var from := AddDevice(dev);
      assert from == was && Free(old(devices), was + 1);
    }

    lemma SecondMeans(one: Device, serial: string, others: set<Device>, x: int)
      requires Base(one.id) == x && Free(others, x) && forall d :: d in others ==> d.serial != serial
      ensures one.serial == serial <==>
              forall d :: d in others + {one} ==> (Base(d.id) == x <==> d.serial == serial)
    {
      assert one in others + {one};
    }

    method TwoNumbers(one: Device, two: Device) returns (id1: int, id2: int)
      requires Valid() && Ahead() && Free(devices, MAXID) && |devices| < MAXID
      requires !Known(one.serial) && !Known(two.serial)
      modifies this`newid
      ensures Valid() && id1 % 2 == id2 % 2 == 0
      ensures Base(id1) == Base(id2) && 1 <= Base(id1) <= MAXID && Free(devices, Base(id1))
    {
      ghost var was := newid;
      assert Free(devices, was + 1);
      ghost var from;
      id1, from := NumberFor(one.serial, one.wifi);
      assert Free(devices, newid);
      id2, from := NumberFor(two.serial, two.wifi);
    }

    /** Two adds that both look for a number before either inserts: two new devices get one
        number, which keeps the invariant only if they are two appearances of one device. */
    method RacingAdds(one: Device, two: Device)
      requires Valid() && Ahead() && Free(devices, MAXID)
      requires one !in devices && two !in devices && one != two && |devices| < MAXID
      requires !Known(one.serial) && !Known(two.serial) && (one.serial != two.serial || one.wifi != two.wifi)
      modifies this, one, two
      ensures devices == old(devices) + {one, two} && Base(one.id) == Base(two.id)
      ensures Valid() <==> one.serial == two.serial
    {
      var id1, id2 := TwoNumbers(one, two);
      var tagged1, tagged2 := Tagged(id1, one.wifi), Tagged(id2, two.wifi);
      hide Valid, Base, Tagged;
      assert forall d :: d in devices ==> d.serial != one.serial && d.serial != two.serial;
      Insert(one, tagged1);
      FreeMeans(one, old(devices));
      SecondMeans(one, two.serial, old(devices), Base(tagged2));
      hide Free, Known;
      Insert(two, tagged2);
    }

    method DeleteDevice(dev: Device)
      requires Valid()
      modifies this`devices
      ensures Valid() && devices == old(devices) - {dev}
    {
      devices := devices - {dev};
    }

    /** The lookup of start_connect: there is at most one answer, and it is found. */
    method FindDevice(id: int) returns (dev: Device?)
      requires Valid()
      ensures dev == null <==> forall d :: d in devices ==> d.id != id
      ensures dev != null ==> dev in devices && dev.id == id && forall d :: d in devices && d.id == id ==> d == dev
    {
      dev := null;
      var rest := devices;
      while rest != {}
        invariant rest <= devices && dev == null
        invariant forall d :: d in devices - rest ==> d.id != id
        decreases |rest|
      {
        var d :| d in rest;
        rest := rest - {d};
        if d.id == id {
          dev := d;
          break;
        }
      }
    }
  }
}
