/** Class `DataHandler`: passes outgoing and incoming data through the
    optional driver fixed at construction. */
module DataHandler {
  import opened Wrappers
  import opened Exceptions
  import opened PhpValues

  /** A `StreamDriverInterface` implementation, as its two methods. */
  datatype Driver = Driver(prepareSendData: Value -> Value, prepareReceiveData: string -> Value)

  datatype DataHandler = DataHandler(driver: Option<Driver>)

  /** Incoming data: the driver's result unchanged, or the data itself when
      there is no driver. */
  function PrepareReceiveData(h: DataHandler, data: string): (r: Value)
    ensures h.driver.None? ==> r == VStr(data)
    ensures h.driver.Some? ==> r == h.driver.value.prepareReceiveData(data)
  {
    if h.driver.Some? then h.driver.value.prepareReceiveData(data) else VStr(data)
  }

  /** Outgoing data: what the driver makes of it, or the data itself, which
      must be a string. */
  function PrepareSendData(h: DataHandler, data: Value): (r: Result<string, Exception>)
    ensures h.driver.None? ==> (r.Success? <==> data.VStr?)
    ensures h.driver.None? && data.VStr? ==> r.value == data.s
    ensures h.driver.Some? ==> (r.Success? <==> h.driver.value.prepareSendData(data).VStr?)
    ensures h.driver.Some? && r.Success? ==> VStr(r.value) == h.driver.value.prepareSendData(data)
    ensures r.Failure? ==> r.error == NotStringStreamException
  {
    var prepared := if h.driver.Some? then h.driver.value.prepareSendData(data) else data;
    if !prepared.VStr? then Failure(NotStringStreamException) else Success(prepared.s)
  }

  /** The driver's two methods undo each other on `x`. */
  predicate InverseOn(d: Driver, x: Value)
  {
    d.prepareSendData(x).VStr? && d.prepareReceiveData(d.prepareSendData(x).s) == x
  }

  /** What is sent can be received back: through a driver whose methods undo
      each other, or with no driver, for a string. */
  lemma SendReceiveRoundTrip(h: DataHandler, x: Value)
    requires if h.driver.Some? then InverseOn(h.driver.value, x) else x.VStr?
    ensures PrepareSendData(h, x).Success?
    ensures PrepareReceiveData(h, PrepareSendData(h, x).value) == x
  {
  }

  /** The driver of the test suite: arrays are joined, anything else is sent
      as the empty string, and received data is returned as it is. */
  function TestDriver(): (d: Driver)
    ensures forall items :: d.prepareSendData(VArray(items)) == VStr(Implode("", items))
    ensures forall v: Value :: !v.VArray? ==> d.prepareSendData(v) == VStr("")
    ensures forall s :: d.prepareReceiveData(s) == VStr(s)
  {
    Driver((v: Value) => if v.VArray? then VStr(Implode("", v.items)) else VStr(""), (s: string) => VStr(s))
  }

  /** With the test driver every payload can be sent, an array as the join of
      its items; without a driver an array is refused. */
  lemma SendArray(items: seq<Value>)
    ensures PrepareSendData(DataHandler(Some(TestDriver())), VArray(items)) == Success(Implode("", items))
    ensures PrepareSendData(DataHandler(None), VArray(items)) == Failure(NotStringStreamException)
  {
  }

  /** The test payload `(array)$query` is sent as the query itself. */
  lemma TestDriverSendsQuery(query: string)
    ensures PrepareSendData(DataHandler(Some(TestDriver())), VArray([VStr(query)])) == Success(query)
  {
  }
}
