/**
 The bodies of the lab9 read, write and exit paths on heap cells, as they run alone: inside the
 write lock of ex1, or with no other call in progress in ex2. The interleavings are in
 `RwlockCell` and `RcuCell`.
 */
module CellDriver {
  import opened Options
  import opened SharedRegister

  class Cell {
    var value: nat
    constructor (value: nat)
      ensures this.value == value
    {
      this.value := value;
    }
  }

  class Driver {
    var myData: Cell?
    ghost var live: set<Cell>        // allocated and not freed
    ghost var history: History

    ghost function Value(): Option<nat>
      reads this, myData
    {
      if myData == null then None else Some(myData.value)
    }

    /** The pointer's cell is the only live one and holds the latest version. */
    ghost predicate Valid()
      reads this, myData
    {
      live == (if myData == null then {} else {myData}) && |history| > 0 && history[|history| - 1] == Value()
    }

    constructor ()
      ensures Valid() && history == [Some(0)] && fresh(myData)
    {
      var c := new Cell(0);
      myData, live, history := c, {c}, [Some(0)];
    }

    /** The two printed values; `None` when the pointer is NULL. */
    method Read() returns (first: Option<nat>, second: Option<nat>)
      requires Valid()
      ensures |history| > 0 && first == second && Recent(history, |history| - 1, first, 0)
    {
      var prior := myData;
      first, second := None, None;
      if prior != null {
        first := Some(prior.value);
        second := Some(prior.value);
      }
      assert history[|history| - 1] == first;
    }

    method Write(arg: nat)
      requires Valid()
      modifies this
      ensures Valid() && fresh(myData) && history == old(history) + [Some(arg)]
      ensures old(myData) !in live
    {
      var cell := new Cell(arg);
      live := live + {cell};
      var prior := myData;
      myData := cell;
      history := history + [Some(arg)];
      if prior != null {
        live := live - {prior};
      }
    }

    method Exit()
      requires Valid()
      modifies this
      ensures Valid() && myData == null && live == {}
      ensures history == if old(myData) == null then old(history) else old(history) + [None]
    {
      if myData != null {
        live := live - {myData};
        myData := null;
        history := history + [None];
      }
    }
  }
}
