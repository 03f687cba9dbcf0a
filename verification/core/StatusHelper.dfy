/** The status that the tasks of a job share. */
module StatusHelper {
  datatype State = Succeed | Canceled | Failed

  datatype Status = Status(state: State, error: int)

  const Fine := Status(Succeed, 0)

  /** checkDone's update under the lock. */
  function Latched(s: Status): Status
  {
    if s.state == Succeed then Status(Canceled, 0) else s
  }

  function Thrown(s: Status, error: int, critical: bool): Status
  {
    Status(if critical then Failed else s.state, error)
  }

  /** A status can only get worse. */
  function Rank(s: State): nat
  {
    match s
    case Succeed => 0
    case Canceled => 1
    case Failed => 2
  }

  class StatusHelper {
    var status: Status

    constructor ()
      ensures status == Fine
    {
      status := Fine;
    }

    /** `breaks` is the break function's answer, false where there is none. */
    method CheckDone(breaks: bool) returns (done: bool)
      modifies this
      ensures done <==> old(status).state == Failed || breaks
      ensures status == if breaks then Latched(old(status)) else old(status)
      ensures status == if breaks && old(status).state == Succeed then Status(Canceled, 0) else old(status)
      ensures Rank(old(status).state) <= Rank(status.state)
      ensures done ==> status.state != Succeed
    {
      if status.state == Failed {
        return true;
      }
      if breaks {
        if status.state == Succeed {
          status := status.(state := Canceled);
          status := status.(error := 0);
        }
        return true;
      }
      return false;
    }

    method ThrowError(error: int, critical: bool)
      modifies this
      ensures status == Thrown(old(status), error, critical)
      ensures status.error == error && status.state == if critical then Failed else old(status).state
      ensures Rank(old(status).state) <= Rank(status.state)
    {
      if critical {
        status := status.(state := Failed);
      }
      status := status.(error := error);
    }
  }
}
