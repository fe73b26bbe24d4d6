/** The adapter list of src/pc/controller/wup.c: a singly linked list
    behind the sentinel `adapters`, with new adapters pushed at the head,
    `remove_adapter` unlinking the first adapter of a device, and
    `wup_get_controller_input` reading port 0 of the head adapter. The
    list is the sequence of adapters after the sentinel. */
module WupRegistry {
  import opened CTypes
  import opened WupDecode
  import opened WupAdapter

  /** What `wup_get_controller_input` copies out: `buttons` and `axis`. */
  datatype AdapterInput = AdapterInput(buttons: bv16, axis: Axes)

  /** The list after unlinking the first adapter whose device is `dev`. */
  function RemoveFirst(s: seq<Adapter>, dev: DeviceId): seq<Adapter>
  {
    if |s| == 0 then []
    else if s[0].device == dev then s[1..]
    else [s[0]] + RemoveFirst(s[1..], dev)
  }

  /** Without an adapter of `dev` the list is unchanged. */
  lemma {:induction false} RemoveFirstAbsent(s: seq<Adapter>, dev: DeviceId)
    requires forall i :: 0 <= i < |s| ==> s[i].device != dev
    ensures RemoveFirst(s, dev) == s
  {
    if |s| > 0 {
      RemoveFirstAbsent(s[1..], dev);
    }
  }

  /** With the first adapter of `dev` at `k`, exactly that one goes and
      the others keep their order. */
  lemma {:induction false} RemoveFirstPresent(s: seq<Adapter>, dev: DeviceId, k: nat)
    requires k < |s| && s[k].device == dev
    requires forall i :: 0 <= i < k ==> s[i].device != dev
    ensures RemoveFirst(s, dev) == s[..k] + s[k + 1..]
  {
    if k == 0 {
      assert s[..0] + s[1..] == s[1..];
    } else {
      var t := s[1..];
      assert forall i :: 0 <= i < k - 1 ==> t[i] == s[i + 1];
      RemoveFirstPresent(t, dev, k - 1);
      assert RemoveFirst(s, dev) == [s[0]] + RemoveFirst(t, dev);
      assert t[..k - 1] == s[1..k] && t[k..] == s[k + 1..];
      assert s[..k] == [s[0]] + s[1..k];
      assert s[..k] + s[k + 1..] == [s[0]] + (s[1..k] + s[k + 1..]);
    }
  }

  /** Adding an adapter and then removing its device restores the list. */
  lemma AddThenRemove(a: Adapter, s: seq<Adapter>)
    ensures RemoveFirst([a] + s, a.device) == s
  {
    assert ([a] + s)[1..] == s;
  }

  /** The sentinel `adapters` and the list hanging off it. */
  class Registry {
    var adapters: seq<Adapter>

    ghost predicate Valid()
      reads this, adapters
    {
      forall i :: 0 <= i < |adapters| ==> adapters[i].Valid()
    }

    /** The static sentinel starts with `next == NULL`. */
    constructor ()
      ensures Valid() && adapters == []
    {
      adapters := [];
    }

    /** The value `wup_get_controller_input` reports: port 0 of the
        head adapter, if there is one. */
    function Input(): (r: Option<AdapterInput>)
      reads this, adapters, if |adapters| > 0 then adapters[0].controllers else []
      requires Valid()
      ensures r.None? <==> |adapters| == 0
    {
      if |adapters| == 0 then None
      else
        var p := adapters[0].controllers[0];
        Some(AdapterInput(p.buttons, p.axis))
    }

    /** `wup_get_controller_input`: `ok` is false exactly when the list is
        empty, and the caller's `buttons`/`axis` are then left as they
        were; otherwise they receive port 0 of the head adapter. */
    method GetControllerInput(buttons0: bv16, axis0: Axes) returns (ok: bool, buttons: bv16, axis: Axes)
      requires Valid()
      ensures ok <==> |adapters| != 0
      ensures !ok ==> buttons == buttons0 && axis == axis0
      ensures ok ==> Input() == Some(AdapterInput(buttons, axis))
      ensures ok ==> buttons == adapters[0].controllers[0].Model().buttons
      ensures ok ==> axis == adapters[0].controllers[0].Model().axis
    {
      if |adapters| != 0 {
        var head := adapters[0];
        buttons := head.controllers[0].buttons;
        axis := head.controllers[0].axis;
        ok := true;
      } else {
        ok, buttons, axis := false, buttons0, axis0;
      }
    }

    /** `add_adapter`: a zeroed adapter for `dev` is pushed at the head
        exactly when the device opens and, if a kernel driver holds it,
        the driver detaches; otherwise the list is unchanged. */
    method AddAdapter(dev: DeviceId, openOk: bool, kernelDriverActive: bool, detachOk: bool)
      returns (added: bool)
      requires Valid()
      modifies this
      ensures Valid()
      ensures added <==> openOk && (!kernelDriverActive || detachOk)
      ensures !added ==> adapters == old(adapters)
      ensures added ==> && |adapters| == |old(adapters)| + 1 && adapters[1..] == old(adapters)
                        && fresh(adapters[0]) && adapters[0].device == dev
                        && adapters[0].Models() == [ZERO_PORT, ZERO_PORT, ZERO_PORT, ZERO_PORT]
                        && adapters[0].rumble == [0, 0, 0, 0, 0]
    {
      var a := new Adapter(dev);
      if !openOk {
        return false;
      }
      if kernelDriverActive && !detachOk {
        return false;
      }
      adapters := [a] + adapters;
      added := true;
    }

    /** `remove_adapter`: the walk from the sentinel unlinks the first
        adapter whose device is `dev`, or nothing. */
    method RemoveAdapter(dev: DeviceId)
      requires Valid()
      modifies this
      ensures Valid()
      ensures adapters == RemoveFirst(old(adapters), dev)
    {
      var i := 0;
      while i < |adapters|
        invariant i <= |adapters|
        invariant forall k :: 0 <= k < i ==> adapters[k].device != dev
        invariant adapters == old(adapters)
      {
        if adapters[i].device == dev {
          RemoveFirstPresent(adapters, dev, i);
          adapters := adapters[..i] + adapters[i + 1..];
          return;
        }
        i := i + 1;
      }
      RemoveFirstAbsent(adapters, dev);
    }

    /** The shutdown loop of `wup_start`: remove the head adapter's
        device until the list is empty. */
    method RemoveAll()
      requires Valid()
      modifies this
      ensures Valid() && adapters == []
    {
      while |adapters| > 0
        invariant Valid()
        decreases |adapters|
      {
        RemoveAdapter(adapters[0].device);
      }
    }
  }

  datatype HotplugEvent = DeviceArrived | DeviceLeft

  /** `hotplug_callback` on `reg`: an arrival adds the device, a
      departure removes it; it always returns 0. */
  method HotplugCallback(reg: Registry, dev: DeviceId, event: HotplugEvent,
                         openOk: bool, kernelDriverActive: bool, detachOk: bool)
    returns (r: int)
    requires reg.Valid()
    modifies reg
    ensures reg.Valid() && r == 0
    ensures event == DeviceLeft ==> reg.adapters == RemoveFirst(old(reg.adapters), dev)
    ensures event == DeviceArrived && !(openOk && (!kernelDriverActive || detachOk)) ==>
      reg.adapters == old(reg.adapters)
    ensures event == DeviceArrived && openOk && (!kernelDriverActive || detachOk) ==>
      && |reg.adapters| == |old(reg.adapters)| + 1
      && reg.adapters[1..] == old(reg.adapters) && reg.adapters[0].device == dev
      && fresh(reg.adapters[0])
      && reg.adapters[0].Models() == [ZERO_PORT, ZERO_PORT, ZERO_PORT, ZERO_PORT]
      && reg.adapters[0].rumble == [0, 0, 0, 0, 0]
  {
    if event == DeviceArrived {
      var _ := reg.AddAdapter(dev, openOk, kernelDriverActive, detachOk);
    } else {
      reg.RemoveAdapter(dev);
    }
    return 0;
  }
}
