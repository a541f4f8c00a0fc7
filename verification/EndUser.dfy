/** The simulated user (end-user/simulated_mobile_eu.py): the device, which is away
  * from any base station while it hands over, and the application, which talks to the
  * service it was last told about. */
module EndUser {
  import opened Basics
  import opened Handlers
  import opened Protocol

  datatype AppState = INIT | NORMAL | TERMINATED

  class MobileDevice {
    var ssid: string
    var isConnected: bool
    /** When the device will be back; zero when it is not waiting. */
    var reconnectTime: real

    /** A device that is away knows when it will be back. */
    ghost predicate Valid() reads this {
      !isConnected ==> reconnectTime > 0.0
    }

    constructor (ssid: string)
      ensures Valid() && this.ssid == ssid && isConnected
    {
      this.ssid, isConnected, reconnectTime := ssid, true, 0.0;
    }

    /** `connect_to_bts`; `duration` is None for an unknown base station. */
    method ConnectToBts(name: string, duration: Option<real>, now: real)
      requires now > 0.0 && (duration.Some? ==> duration.value >= 0.0)
      modifies this
      ensures old(Valid()) ==> Valid()
      ensures (ssid, isConnected) == if duration.Some? then (name, false) else old((ssid, isConnected))
      ensures reconnectTime == if duration.Some? then now + duration.value else old(reconnectTime)
    {
      if duration.None? {
        return;
      }
      reconnectTime := now + duration.value;
      ssid := name;
      isConnected := false;
    }

    /** `update_eu`: the base station to publish as reached, if any. A device that is
      * away is back at the first update after its time, and not before. */
    method UpdateEu(now: real) returns (handovered: Option<string>)
      requires Valid()
      modifies this
      ensures Valid() && ssid == old(ssid)
      ensures handovered == if !old(isConnected) && old(reconnectTime) < now then Some(ssid) else None
      ensures isConnected == (old(isConnected) || handovered.Some?)
    {
      handovered := None;
      if !isConnected && reconnectTime != 0.0 {
        if reconnectTime < now {
          isConnected := true;
          handovered := Some(ssid);
          reconnectTime := 0.0;
        }
      }
    }
  }

  class MobileEUTestApp {
    const device: MobileDevice
    var service: Option<Service>
    var state: AppState
    /** The service the open stream socket leads to. */
    var streamSock: Option<Service>

    /** An open socket leads to the current service, never to the one that was left;
      * and requests are made only once there is a service. */
    ghost predicate Valid() reads this, device {
      && device.Valid()
      && (streamSock.Some? ==> streamSock == service)
      && (state == NORMAL ==> service.Some?)
    }

    /** What the protocol keeps of the user. */
    ghost function View(discovered: bool): Eu reads this, device {
      Eu(discovered, service, device.ssid, device.isConnected)
    }

    constructor (d: MobileDevice)
      requires d.Valid()
      ensures Valid() && device == d && service.None? && state == INIT
    {
      device, service, state, streamSock := d, None, INIT, None;
    }

    /** `try_connect_to_service`; `up` says whether the server answers. */
    method TryConnect(up: bool)
      requires Valid()
      modifies this`streamSock
      ensures Valid() && streamSock == if up then service else None
    {
      streamSock := if up then service else None;
    }

    method ProcessAllocated(svc: Service, up: bool)
      requires Valid()
      modifies this
      ensures Valid()
      ensures forall d :: View(d) == EuHandle(old(View(d)), UAllocated(svc), true)
      ensures state == if old(state) == TERMINATED then TERMINATED else NORMAL
    {
      service := Some(svc);
      streamSock := None;
      TryConnect(up);
      if state != TERMINATED {
        state := NORMAL;
      }
    }

    method ProcessMigrated(svc: Service)
      requires Valid()
      modifies this
      ensures Valid() && streamSock.None?
      ensures forall d :: View(d) == EuHandle(old(View(d)), UMigrated(svc), true)
      ensures state == if old(state) == TERMINATED then TERMINATED else NORMAL
    {
      service := Some(svc);
      if state != TERMINATED {
        state := NORMAL;
      }
      if streamSock.Some? {
        streamSock := None;
      }
    }

    method ProcessHandover(name: string, duration: Option<real>, now: real)
      requires Valid() && now > 0.0 && (duration.Some? ==> duration.value >= 0.0)
      modifies this`streamSock, device
      ensures Valid() && streamSock.None?
      ensures forall d :: View(d) == EuHandle(old(View(d)), UHandover(name), duration.Some?)
    {
      device.ConnectToBts(name, duration, now);
      if streamSock.Some? {
        streamSock := None;
      }
    }

    /** The periodic update: a step Reconnect of the protocol when it publishes the
      * base station, and no step otherwise. */
    method Update(now: real) returns (handovered: Option<string>)
      requires Valid()
      modifies device
      ensures Valid()
      ensures handovered.Some? ==> handovered.value == device.ssid && !old(device.isConnected)
      ensures forall d :: View(d) == if handovered.Some? then old(View(d)).(connected := true) else old(View(d))
    {
      handovered := device.UpdateEu(now);
    }

    /** One turn of the request thread: to whom a request goes, if any. */
    method Request(up: bool) returns (to: Option<Service>)
      requires Valid()
      modifies this`streamSock
      ensures Valid()
      ensures to.Some? ==> to == service && device.isConnected && state == NORMAL
    {
      to := None;
      if device.isConnected && state == NORMAL {
        if streamSock.None? {
          TryConnect(up);
        } else {
          to := streamSock;
        }
      }
    }
  }
}
