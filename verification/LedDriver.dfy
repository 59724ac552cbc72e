/** team/pi2_led_driver.c: the character device that owns the LED pin. */
module LedDriver {

  const EINVAL := 22
  const EFAULT := 14

  class Device {
    var ledState: int
    var pin: int

    ghost predicate Valid()
      reads this
    {
      ledState == pin && (pin == 0 || pin == 1)
    }

    constructor ()
      ensures Valid() && ledState == 0
    {
      ledState, pin := 0, 0;
    }

    /** pi2_led_write; `copyOk` says whether the first byte can be copied from the user. */
    method Write(buf: seq<char>, copyOk: bool) returns (ret: int)
      requires Valid()
      modifies this
      ensures Valid()
      ensures ret == if buf == [] then -EINVAL else if !copyOk then -EFAULT
                     else if buf[0] == '1' || buf[0] == '0' then |buf| else -EINVAL
      ensures ledState == if ret > 0 then (if buf[0] == '1' then 1 else 0) else old(ledState)
    {
      if |buf| < 1 {
        return -EINVAL;
      }
      if !copyOk {
        return -EFAULT;
      }
      var cmd := buf[0];
      if cmd == '1' {
        pin := 1;
        ledState := 1;
      } else if cmd == '0' {
        pin := 0;
        ledState := 0;
      } else {
        return -EINVAL;
      }
      return |buf|;
    }

    /** pi2_led_read: two bytes once, then end of file. */
    method Read(count: nat, pos: int, copyOk: bool) returns (ret: int, data: seq<char>, newPos: int)
      ensures ret == if pos > 0 then 0 else if count < 2 then -EINVAL else if !copyOk then -EFAULT else 2
      ensures data == if ret == 2 then [if ledState != 0 then '1' else '0', '\n'] else []
      ensures newPos == if ret == 2 then pos + 2 else pos
    {
      data, newPos := [], pos;
      if pos > 0 {
        return 0, data, newPos;
      }
      var c := if ledState != 0 then '1' else '0';
      if count < 2 {
        return -EINVAL, data, newPos;
      }
      if !copyOk {
        return -EFAULT, data, newPos;
      }
      return 2, [c, '\n'], pos + 2;
    }
  }

  /** A reader that opens the device afresh reads back the command written, then end of file. */
  method WriteThenRead(d: Device, cmd: char) returns (first: seq<char>, second: int)
    requires d.Valid() && (cmd == '0' || cmd == '1')
    modifies d
    ensures d.Valid() && first == [cmd, '\n'] && second == 0
  {
    var w := d.Write([cmd], true);
    var r, data, pos := d.Read(2, 0, true);
    var r2, rest, end := d.Read(2, pos, true);
    return data, r2;
  }
}
