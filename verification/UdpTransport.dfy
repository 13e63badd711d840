/** The ledger of descriptors of a UDP transport: which it creates, adopts, borrows and closes. */
module UdpTransports {

  const FD_SETSIZE: int := 1024

  datatype Status = Ok | Error

  /** `addressesFit`: both address families are AF_INET and the peer's port is not 0. */
  datatype Config = Config(
    fd: int, alreadyBound: bool, takeOwnership: bool, reuseAddress: bool, tcpFd: int, addressesFit: bool)

  predicate Usable(config: Config) {
    && -1 <= config.fd < FD_SETSIZE && -1 <= config.tcpFd < FD_SETSIZE && config.addressesFit
    && !(config.fd == -1 && config.alreadyBound)
  }

  /** What the kernel says when asked: the number `socket` offers (negative if it fails), what
      `getsockopt` and `getsockname` say about a descriptor that is open, and whether
      `setsockopt` and `bind` succeed. */
  datatype Answers = Answers(
    offered: int, described: bool, datagram: bool, inet: bool, port: nat, reuses: bool, binds: bool)

  predicate Accepted(config: Config, answers: Answers) {
    && answers.described && answers.datagram && answers.inet
    && (if config.alreadyBound then answers.port != 0 else answers.binds && (config.reuseAddress ==> answers.reuses))
  }

  /** Whether the next of some coming `close` calls reports success. */
  predicate Succeeds(closings: seq<bool>) {
    closings == [] || closings[0]
  }

  /** The process's open descriptors. The kernel hands out a number only while it is not in use, and
      every other answer is arbitrary. */
  class Kernel {
    var openFds: set<int>
    /** The open descriptors that belong to the caller, among them what it lends to the transport
        and every TCP descriptor. */
    var callers: set<int>
    /** The descriptors the transport created or adopted, in order. */
    var acquired: seq<int>
    /** The arguments of the transport's `close` calls, in order. */
    var released: seq<int>
    /** Whether the coming `close` calls report success; after the last entry all do. */
    var closings: seq<bool>

    constructor (openFds: set<int>, closings: seq<bool>)
      ensures this.openFds == callers == openFds && acquired == released == [] && this.closings == closings
    {
      this.openFds, callers, acquired, released, this.closings := openFds, openFds, [], [], closings;
    }

    method Socket(offered: int) returns (fd: int)
      modifies this
      ensures callers == old(callers) && released == old(released)
      ensures fd == if offered < 0 || offered in old(openFds) then -1 else offered
      ensures fd < 0 ==> openFds == old(openFds) && acquired == old(acquired)
      ensures fd >= 0 ==> openFds == old(openFds) + {fd} && acquired == old(acquired) + [fd]
    {
      fd := offered;
      if fd < 0 || fd in openFds { return -1; }
      openFds, acquired := openFds + {fd}, acquired + [fd];
    }

    /** `close` frees the number even when it reports an error. */
    method Close(fd: int) returns (ok: bool)
      modifies this
      ensures openFds == old(openFds) - {fd} && released == old(released) + [fd]
      ensures callers == old(callers) && acquired == old(acquired)
      ensures ok == Succeeds(old(closings)) && closings == if old(closings) == [] then [] else old(closings)[1..]
    {
      ok := closings == [] || closings[0];
      if closings != [] { closings := closings[1..]; }
      openFds, released := openFds - {fd}, released + [fd];
    }

    method HandOver(fd: int)
      modifies this`callers, this`acquired
      ensures callers == old(callers) - {fd} && acquired == old(acquired) + [fd]
    {
      callers, acquired := callers - {fd}, acquired + [fd];
    }

    /** The caller opens a descriptor of its own: an accepted TCP connection, for instance. */
    method CallerOpens(fd: int)
      modifies this`openFds, this`callers
      ensures fd in old(openFds) ==> openFds == old(openFds) && callers == old(callers)
      ensures fd !in old(openFds) ==> openFds == old(openFds) + {fd} && callers == old(callers) + {fd}
    {
      if fd !in openFds {
        callers := callers + {fd};
        openFds := openFds + {fd};
      }
    }

    method CallerCloses(fd: int)
      modifies this
      ensures callers == old(callers) - {fd} && acquired == old(acquired) && released == old(released)
      ensures openFds == if fd in old(callers) then old(openFds) - {fd} else old(openFds)
    {
      if fd in callers { openFds := openFds - {fd}; }
      callers := callers - {fd};
    }
  }

  /** A transport over the caller's `data` memory, if there is any. */
  class Transport {
    const kernel: Kernel
    const hasData: bool
    /** `ops != NULL`. */
    var active: bool
    var fd: int
    var ownsFd: bool
    var tcpFd: int

    ghost function Outstanding(): seq<int>
      reads this
    {
      if active && ownsFd then [fd] else []
    }

    /** What was created or adopted is what was closed so far and the descriptor in use, if owned;
        the caller's descriptors are open, and the transport owns every other open one. */
    ghost predicate Ledger()
      reads this, kernel
    {
      && kernel.acquired == kernel.released + Outstanding()
      && kernel.callers <= kernel.openFds
      && (forall d :: d in kernel.openFds ==> d in kernel.callers || (active && ownsFd && d == fd))
      && (active && ownsFd ==> fd in kernel.openFds && fd !in kernel.callers)
      && (active ==> hasData && 0 <= fd < FD_SETSIZE && -1 <= tcpFd < FD_SETSIZE)
    }

    constructor (kernel: Kernel, hasData: bool)
      requires kernel.acquired == kernel.released && kernel.callers == kernel.openFds
      ensures Ledger() && this.kernel == kernel && this.hasData == hasData && !active && tcpFd == -1
    {
      this.kernel, this.hasData := kernel, hasData;
      active, fd, ownsFd, tcpFd := false, -1, false, -1;
    }

    /** A failure leaves the transport and every descriptor of the caller as they were, and closes
        nothing except a descriptor created by this very call; only success adopts the descriptor. */
    method InitUdp(config: Config, answers: Answers) returns (status: Status)
      requires Ledger()
      modifies this, kernel
      ensures Ledger()
      ensures status == Ok <==>
                && hasData && !old(active) && Usable(config) && Accepted(config, answers)
                && (if config.fd == -1 then 0 <= answers.offered < FD_SETSIZE && answers.offered !in old(kernel.openFds)
                    else config.fd in old(kernel.openFds))
      ensures status == Ok ==>
                && active && fd == (if config.fd == -1 then answers.offered else config.fd)
                && tcpFd == config.tcpFd && ownsFd == (config.fd == -1 || config.takeOwnership)
                && kernel.released == old(kernel.released)
      ensures status == Error ==>
                && active == old(active) && fd == old(fd) && ownsFd == old(ownsFd) && tcpFd == old(tcpFd)
                && kernel.openFds == old(kernel.openFds)
      ensures kernel.callers ==
              if status == Ok && config.fd != -1 && config.takeOwnership then old(kernel.callers) - {config.fd}
              else old(kernel.callers)
      ensures config.fd != -1 || old(active) ==> kernel.released == old(kernel.released)
      ensures old(kernel.acquired) <= kernel.acquired && old(kernel.released) <= kernel.released
      ensures |kernel.released| <= |old(kernel.released)| + 1
      ensures forall d :: d in kernel.released[|old(kernel.released)|..] ==> d !in old(kernel.openFds)
    {
      if !hasData || active || !Usable(config) { return Error; }
      var candidate := config.fd;
      if candidate == -1 {
        candidate := kernel.Socket(answers.offered);
      }
      var ready := Check(candidate, config, answers);
      if !ready {
        if config.fd == -1 && candidate >= 0 {
          var _ := kernel.Close(candidate);
        }
        return Error;
      }
      if config.fd != -1 && config.takeOwnership { kernel.HandOver(candidate); }
      fd, ownsFd := candidate, config.fd == -1 || config.takeOwnership;
      tcpFd := config.tcpFd;
      active := true;
      return Ok;
    }

    /** Everything between having a descriptor and using it; a descriptor that is not open cannot be
        described. */
    method Check(fd: int, config: Config, answers: Answers) returns (ready: bool)
      ensures ready <==> 0 <= fd < FD_SETSIZE && fd in kernel.openFds && Accepted(config, answers)
    {
      if fd < 0 || fd >= FD_SETSIZE { return false; }
      if fd !in kernel.openFds || !answers.described { return false; }
      if !answers.datagram || !answers.inet || (config.alreadyBound && answers.port == 0) { return false; }
      if !config.alreadyBound {
        if config.reuseAddress {
          if !answers.reuses { return false; }
        }
        if !answers.binds { return false; }
      }
      return true;
    }

    method SetTcpFd(tcpFd: int) returns (status: Status)
      requires Ledger()
      modifies this`tcpFd
      ensures Ledger()
      ensures status == Ok <==> active && -1 <= tcpFd < FD_SETSIZE
      ensures this.tcpFd == if status == Ok then tcpFd else old(this.tcpFd)
    {
      if !active || tcpFd < -1 || tcpFd >= FD_SETSIZE { return Error; }
      this.tcpFd := tcpFd;
      return Ok;
    }

    /** An owned descriptor is closed, once; the transport is inactive afterwards, whatever `close`
        said; a second call does nothing. */
    method Close() returns (status: Status)
      requires Ledger()
      modifies this, kernel
      ensures Ledger() && !active && kernel.callers == old(kernel.callers)
      ensures kernel.released == old(kernel.released + Outstanding()) == kernel.acquired == old(kernel.acquired)
      ensures !old(active) ==> status == Ok && kernel.openFds == old(kernel.openFds) && tcpFd == old(tcpFd)
      ensures old(active && !ownsFd) ==> status == Ok && kernel.openFds == old(kernel.openFds)
      ensures old(active && ownsFd) ==>
                && status == (if Succeeds(old(kernel.closings)) then Ok else Error)
                && kernel.openFds == old(kernel.openFds) - {old(fd)}
      ensures old(active) ==> fd == -1 && !ownsFd && tcpFd == -1
    {
      if !active { return Ok; }
      var ok := true;
      if ownsFd { ok := kernel.Close(fd); }
      fd, ownsFd := -1, false;
      active := false;
      tcpFd := -1;
      return if ok then Ok else Error;
    }
  }

  datatype Call =
    | CallInit(config: Config, answers: Answers)
    | CallSetTcpFd(tcpFd: int)
    | CallClose
    | CallerOpens(fd: int)
    | CallerCloses(fd: int)

  /** The calls by which the caller itself gives a descriptor away. */
  predicate GivesAway(call: Call, d: int) {
    call == CallerCloses(d) || (call.CallInit? && call.config.fd == d && call.config.takeOwnership)
  }

  /** Over every sequence of calls, with any answers of the kernel: each descriptor created or adopted
      is closed exactly once, except that the one in use is still to be closed, and a further
      `Close` closes that one too; and a descriptor of the caller stays open and the caller's unless
      the caller closes it or hands it over. */
  method Use(transport: Transport, calls: seq<Call>)
    requires transport.Ledger()
    modifies transport, transport.kernel
    ensures transport.Ledger()
    ensures old(transport.kernel.acquired) <= transport.kernel.acquired
    ensures old(transport.kernel.released) <= transport.kernel.released
    ensures forall d :: d in old(transport.kernel.callers) &&
                        (forall i :: 0 <= i < |calls| ==> !GivesAway(calls[i], d)) ==>
              d in transport.kernel.callers && d in transport.kernel.openFds
  {
    var kernel := transport.kernel;
    for i := 0 to |calls|
      invariant transport.Ledger()
      invariant old(kernel.acquired) <= kernel.acquired && old(kernel.released) <= kernel.released
      invariant forall d :: d in old(kernel.callers) && (forall j :: 0 <= j < i ==> !GivesAway(calls[j], d)) ==>
                  d in kernel.callers
    {
      match calls[i] {
        case CallInit(config, answers) => var _ := transport.InitUdp(config, answers);
        case CallSetTcpFd(tcpFd) => var _ := transport.SetTcpFd(tcpFd);
        case CallClose => var _ := transport.Close();
        case CallerOpens(fd) => kernel.CallerOpens(fd);
        case CallerCloses(fd) => kernel.CallerCloses(fd);
      }
    }
  }
}
