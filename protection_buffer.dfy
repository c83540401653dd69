/** What the two protection buffers share: the stop order record, its label
    and its side. */
module ProtectionBuffer {
  import opened Wrappers
  import opened Holding

  const StopType: string := "STOP"

  /** One row of a buffer: "Ticker", "Buy/Sell", "Quantity", "Type", "Price". */
  datatype StopOrder = StopOrder(ticker: string, side: Side, quantity: int, orderType: string, price: real)

  /** `ticker + location`, with no separator; a missing location is a float
      NaN, and adding it to a string raises. */
  function StopLabel(ticker: string, location: Location): (r: Result<string>)
    ensures r.Ok? <==> location != Missing
    ensures r.Err? ==> r.error == TypeError
    ensures r.Ok? ==> |r.value| == |ticker| + 2 && r.value[..|ticker|] == ticker
    ensures r.Ok? ==> r.value[|ticker|..] == (if location == CA then "CA" else "US")
  {
    match LocationText(location)
    case None => Err(TypeError)
    case Some(text) => Ok(ticker + text)
  }

  /** `np.where(amount > 0, "Sell", "Buy")`: a long position is protected by a
      sell stop, anything else by a buy stop. */
  function StopSide(amount: int): (s: Side)
    ensures s == Sell <==> amount > 0
  {
    if amount > 0 then Sell else Buy
  }

  /** `pd.DataFrame({...})` over one record as the buffers write it: every
      value is a scalar, and pandas refuses to build a frame from scalars
      alone without an index. */
  function ScalarRecordFrame(o: StopOrder): Result<seq<StopOrder>>
  {
    Err(ValueError)
  }

  /** The one-row frame the buffers evidently intend for each record. */
  function RecordFrame(o: StopOrder): (r: seq<StopOrder>)
    ensures |r| == 1 && r[0] == o
  {
    [o]
  }

  /** `pd.concat` of a list of record frames. */
  function Concat(frames: seq<Result<seq<StopOrder>>>): (r: Result<seq<StopOrder>>)
    ensures frames == [] ==> r == Err(NothingToConcatenate)
    ensures (exists k :: 0 <= k < |frames| && frames[k].Err?) ==> r.Err?
  {
    if frames == [] then Err(NothingToConcatenate)
    else
      var n := |frames| - 1;
      if frames[n].Err? then Err(frames[n].error)
      else if n == 0 then frames[0]
      else
        match Concat(frames[..n])
        case Err(e) => Err(e)
        case Ok(os) => Ok(os + frames[n].value)
  }

  /** The intended frame of every record, in order. */
  function RecordFrames(os: seq<StopOrder>): (fs: seq<Result<seq<StopOrder>>>)
    ensures |fs| == |os| && forall i :: 0 <= i < |os| ==> fs[i] == Ok(RecordFrame(os[i]))
  {
    seq(|os|, i requires 0 <= i < |os| => Ok(RecordFrame(os[i])))
  }

  /** Concatenating one-row frames gives back the records, in order; no
      records leave nothing to concatenate. */
  lemma {:induction false} ConcatRecords(os: seq<StopOrder>)
    ensures os == [] ==> Concat(RecordFrames(os)) == Err(NothingToConcatenate)
    ensures os != [] ==> Concat(RecordFrames(os)) == Ok(os)
  {
    if |os| > 1 {
      var n := |os| - 1;
      assert RecordFrames(os)[..n] == RecordFrames(os[..n]);
      ConcatRecords(os[..n]);
      assert os == os[..n] + [os[n]];
    } else if |os| == 1 {
      assert os == [os[0]];
    }
  }

  /** The list of frames a loop builds front to back; the first frame that
      fails to build raises, and the loop stops there. */
  function Collect(frames: seq<Result<seq<StopOrder>>>): Result<seq<seq<StopOrder>>>
  {
    if frames == [] then Ok([])
    else if frames[0].Err? then Err(frames[0].error)
    else
      match Collect(frames[1..])
      case Err(e) => Err(e)
      case Ok(fs) => Ok([frames[0].value] + fs)
  }

  /** Frames already built, ready for `pd.concat`. */
  function Built(fs: seq<seq<StopOrder>>): (frames: seq<Result<seq<StopOrder>>>)
    ensures |frames| == |fs|
  {
    seq(|fs|, i requires 0 <= i < |fs| => Ok(fs[i]))
  }

  /** One record's frame as the buffers write it; a record that could not be
      built raises first. */
  function FrameAsWritten(record: Result<StopOrder>): Result<seq<StopOrder>>
  {
    match record
    case Err(e) => Err(e)
    case Ok(o) => ScalarRecordFrame(o)
  }

  /** The records' frames as written, in loop order. */
  function FramesAsWritten(records: seq<Result<StopOrder>>): (frames: seq<Result<seq<StopOrder>>>)
    ensures |frames| == |records|
    ensures forall i :: 0 <= i < |records| ==> frames[i] == FrameAsWritten(records[i])
  {
    seq(|records|, i requires 0 <= i < |records| => FrameAsWritten(records[i]))
  }

  /** `pd.concat(buffer_list)` after a loop as written. A loop that builds
      no record leaves nothing to concatenate; otherwise the first record
      ends the run, with its own error or with its frame's ValueError. */
  function ConcatAsWritten(records: seq<Result<StopOrder>>): (r: Result<seq<StopOrder>>)
    ensures records == [] ==> r == Err(NothingToConcatenate)
    ensures records != [] ==> r == Err(if records[0].Err? then records[0].error else ValueError)
  {
    match Collect(FramesAsWritten(records))
    case Err(e) => Err(e)
    case Ok(fs) => Concat(Built(fs))
  }
}
