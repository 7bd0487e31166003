/**
 RawSqlBatchRequest, the per-request token consumer, and the rawSql/query
 entry points that build one and hand it to the connection.
 */
module RawSqlBatch {
  import opened TDSTypes
  import opened TokenHandling

  class RawSqlBatchRequest {
    const sqlBatch: RawSqlBatchMessage
    const onRow: RowCallback
    /** The table of the latest column metadata; it persists across packets. */
    var rowLookupTable: Option<LookupTable>
    /** The rows onRow has accepted so far: the trace of its side effects. */
    var delivered: seq<TDSRow>

    function State(): BatchState
      reads this
    {
      BatchState(rowLookupTable, delivered)
    }

    constructor (sqlBatch: RawSqlBatchMessage, onRow: RowCallback)
      ensures this.sqlBatch == sqlBatch && this.onRow == onRow
      ensures State() == Initial
    {
      this.sqlBatch := sqlBatch;
      this.onRow := onRow;
      rowLookupTable := None;
      delivered := [];
    }

    /** handleParsedTokens: walks the tokens in order and stops at the first that throws. */
    method HandleParsedTokens(tokens: seq<Token>) returns (thrown: Option<Error>)
      modifies this
      ensures State() == Process(onRow, old(State()), tokens).state
      ensures thrown.Some? <==> Process(onRow, old(State()), tokens).Stopped?
      ensures thrown.Some? ==> thrown.value == Process(onRow, old(State()), tokens).error
    {
      var i := 0;
      while i < |tokens|
        invariant 0 <= i <= |tokens|
        invariant Process(onRow, old(State()), tokens) == Process(onRow, State(), tokens[i..])
      {
        assert tokens[i..][0] == tokens[i] && tokens[i..][1..] == tokens[i + 1..];
        var token := tokens[i];
        if token.tag == ROW_TOKEN {
          if !token.body.RowBody? {
            return Some(RowReadError);
          }
          if rowLookupTable.None? {
            return Some(MissingMetadata);
          }
          var row := TDSRow(token.body.row, rowLookupTable.value);
          var outcome := onRow(delivered, row);
          if outcome.Threw? {
            return Some(CallbackError(outcome.reason));
          }
          delivered := delivered + [row];
        } else if token.tag == COLMETADATA_TOKEN {
          if !token.body.ColMetadataBody? {
            return Some(ColMetadataReadError);
          }
          rowLookupTable := Some(LookupTable(token.body.colMetadata));
        }
        i := i + 1;
      }
      return None;
    }

    /** handle(packet:allocator:): the packet's tokens, then Done exactly when the status is EOM. */
    method Handle(packet: TDSPacket) returns (r: Result<PacketResponse>)
      modifies this
      ensures var h := HandlePacket(onRow, old(State()), packet);
              State() == h.state && r == h.response
    {
      var thrown := HandleParsedTokens(packet.parsedTokens);
      if thrown.Some? {
        return Err(thrown.value);
      }
      if packet.status != STATUS_EOM {
        return Ok(Continue);
      }
      return Ok(Done);
    }
  }

  /**
   The connection sending `request` and feeding it the response packets in
   order, until handle throws or returns Done.
   */
  method Send(request: RawSqlBatchRequest, packets: seq<TDSPacket>) returns (f: Future<()>)
    modifies request
    ensures var d := Drive(request.onRow, old(request.State()), packets);
            request.State() == d.state && f == d.result
  {
    var i := 0;
    while i < |packets|
      invariant 0 <= i <= |packets|
      invariant Drive(request.onRow, old(request.State()), packets) == Drive(request.onRow, request.State(), packets[i..])
    {
      assert packets[i..][0] == packets[i] && packets[i..][1..] == packets[i + 1..];
      var response := request.Handle(packets[i]);
      match response
      case Err(e) => return Failed(e);
      case Ok(Done) => return Succeeded(());
      case Ok(Continue) =>
      i := i + 1;
    }
    return Pending;
  }

  /** query(_:_:): a request for `message` with callback `onRow`, sent on the connection. */
  method Query(message: RawSqlBatchMessage, onRow: RowCallback, packets: seq<TDSPacket>)
    returns (f: Future<()>, delivered: seq<TDSRow>)
    ensures var d := Drive(onRow, Initial, packets);
            f == d.result && delivered == d.state.delivered
    ensures f.Succeeded? ==> delivered == RowsOf(None, ResponseTokens(packets))
  {
    var request := new RawSqlBatchRequest(message, onRow);
    f := Send(request, packets);
    delivered := request.delivered;
    if f.Succeeded? {
      DriveDeliversResponseRows(onRow, packets);
    }
  }

  /**
   rawSql(_:onRow:): the same, for a query text. `delivered` is the rows the
   callback accepted; the source returns only the future.
   */
  method RawSql(sqlText: string, onRow: RowCallback, packets: seq<TDSPacket>)
    returns (f: Future<()>, delivered: seq<TDSRow>)
    ensures var d := Drive(onRow, Initial, packets);
            f == d.result && delivered == d.state.delivered
    ensures f.Succeeded? ==> delivered == RowsOf(None, ResponseTokens(packets))
  {
    f, delivered := Query(RawSqlBatchMessage(sqlText), onRow, packets);
  }

  /** The closure rawSql(_:) passes: it appends every row and never throws. */
  function Collect(accepted: seq<TDSRow>, row: TDSRow): CallbackOutcome {
    Returned
  }

  /**
   rawSql(_:): runs the query with a collecting callback; on success the
   future's value is the rows in delivery order, which are exactly the rows
   of the response's row tokens.
   */
  method RawSqlRows(sqlText: string, packets: seq<TDSPacket>) returns (f: Future<seq<TDSRow>>)
    ensures var d := Drive(Collect, Initial, packets);
            match d.result
            case Succeeded(_) => f == Succeeded(d.state.delivered)
            case Failed(e) => f == Failed(e)
            case Pending => f == Pending
    ensures f.Succeeded? ==> f.value == RowsOf(None, ResponseTokens(packets))
    ensures f.Failed? ==> !f.error.CallbackError?
  {
    assert AcceptsAll(Collect);
    NoCallbackErrorWhenAccepting(Collect, Initial, packets);
    var done, rows := RawSql(sqlText, Collect, packets);
    match done
    case Succeeded(_) => f := Succeeded(rows);
    case Failed(e) => f := Failed(e);
    case Pending => f := Pending;
  }
}
