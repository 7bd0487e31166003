/**
 What RawSqlBatchRequest does with parsed tokens, as functions: one token
 (Step), a batch of tokens (Process), one packet (HandlePacket) and the
 packets of one response (Drive), together with independent reference
 definitions of the rows and the lookup table a token stream should produce
 (RowsOf, LatestTable) and the lemmas that connect the two.
 */
module TokenHandling {
  import opened TDSTypes

  /** The request's state: the lookup table field and the rows onRow has accepted. */
  datatype BatchState = BatchState(rowLookupTable: Option<LookupTable>, delivered: seq<TDSRow>)

  /** Either the loop goes on from `state`, or it threw `error` in `state`. */
  datatype Progress = Running(state: BatchState) | Stopped(state: BatchState, error: Error)

  /** The state of handle(packet:) after one packet, and what it returned or threw. */
  datatype HandleOutcome = HandleOutcome(state: BatchState, response: Result<PacketResponse>)

  /** The state after feeding a response's packets, and how the request's future completed. */
  datatype DriveOutcome = DriveOutcome(state: BatchState, result: Future<()>)

  const RowReadError := ProtocolError("Error while reading row results.")
  const ColMetadataReadError := ProtocolError("Error reading column metadata token.")

  /** A fresh request: no lookup table, no rows. */
  const Initial := BatchState(None, [])

  predicate IsRow(t: Token) { t.tag == ROW_TOKEN && t.body.RowBody? }
  predicate IsColMetadata(t: Token) { t.tag == COLMETADATA_TOKEN && t.body.ColMetadataBody? }
  /** A token the switch sends to its default branch. */
  predicate IsIgnored(t: Token) { t.tag != ROW_TOKEN && t.tag != COLMETADATA_TOKEN }
  /** A token whose tag and body disagree, so the `as?` cast fails. */
  predicate IsMistyped(t: Token) {
    (t.tag == ROW_TOKEN && !t.body.RowBody?) || (t.tag == COLMETADATA_TOKEN && !t.body.ColMetadataBody?)
  }

  /**
   The three reasons a token can throw in state `s`, with the error each
   raises: a failed cast (the matching protocol error), a row before any
   column metadata (MissingMetadata), or a row the callback throws on.
   */
  predicate ThrowCause(onRow: RowCallback, s: BatchState, t: Token, e: Error) {
    (IsMistyped(t) && e == (if t.tag == ROW_TOKEN then RowReadError else ColMetadataReadError)) ||
    (IsRow(t) && s.rowLookupTable.None? && e == MissingMetadata) ||
    (IsRow(t) && s.rowLookupTable.Some? &&
     var out := onRow(s.delivered, TDSRow(t.body.row, s.rowLookupTable.value));
     out.Threw? && e == CallbackError(out.reason))
  }

  /**
   One iteration of the loop in handleParsedTokens. A token that throws leaves
   the state as it was; only a well-formed COLMETADATA token changes the
   table, and only a well-formed ROW token that the callback accepts adds a
   row; ignored tokens change nothing and mistyped ones raise a protocol error.
   A token throws only for one of the reasons ThrowCause lists.
   */
  function Step(onRow: RowCallback, s: BatchState, t: Token): (r: Progress)
    ensures r.Stopped? ==> r.state == s
    ensures r.state.rowLookupTable ==
            if r.Running? && IsColMetadata(t) then Some(LookupTable(t.body.colMetadata)) else s.rowLookupTable
    ensures r.Running? && IsRow(t) ==>
            s.rowLookupTable.Some? && r.state.delivered == s.delivered + [TDSRow(t.body.row, s.rowLookupTable.value)]
    ensures !(r.Running? && IsRow(t)) ==> r.state.delivered == s.delivered
    ensures IsIgnored(t) ==> r == Running(s)
    ensures IsMistyped(t) ==> r.Stopped? && r.error.ProtocolError?
    ensures r.Stopped? ==> ThrowCause(onRow, s, t, r.error)
    ensures IsColMetadata(t) ==> r.Running?
    ensures IsRow(t) && s.rowLookupTable.None? ==> r == Stopped(s, MissingMetadata)
    ensures IsRow(t) && s.rowLookupTable.Some? ==>
            var row := TDSRow(t.body.row, s.rowLookupTable.value);
            var out := onRow(s.delivered, row);
            r == if out.Returned? then Running(s.(delivered := s.delivered + [row])) else Stopped(s, CallbackError(out.reason))
  {
    if t.tag == ROW_TOKEN then
      if !t.body.RowBody? then Stopped(s, RowReadError)
      else match s.rowLookupTable
        case None => Stopped(s, MissingMetadata)
        case Some(table) =>
          var row := TDSRow(t.body.row, table);
          match onRow(s.delivered, row)
          case Returned => Running(s.(delivered := s.delivered + [row]))
          case Threw(reason) => Stopped(s, CallbackError(reason))
    else if t.tag == COLMETADATA_TOKEN then
      if !t.body.ColMetadataBody? then Stopped(s, ColMetadataReadError)
      else Running(s.(rowLookupTable := Some(LookupTable(t.body.colMetadata))))
    else
      Running(s)
  }

  /**
   handleParsedTokens: the tokens in order, stopping at the first one that
   throws. The row trace only grows at its end, by at most one row per token.
   */
  function Process(onRow: RowCallback, s: BatchState, tokens: seq<Token>): (r: Progress)
    ensures |s.delivered| <= |r.state.delivered| <= |s.delivered| + |tokens|
    ensures r.state.delivered[..|s.delivered|] == s.delivered
    decreases |tokens|
  {
    if tokens == [] then Running(s)
    else match Step(onRow, s, tokens[0])
      case Running(s') => Process(onRow, s', tokens[1..])
      case Stopped(s', e) => Stopped(s', e)
  }

  /** handle(packet:): the packet's tokens, then Done exactly on an EOM packet. */
  function HandlePacket(onRow: RowCallback, s: BatchState, packet: TDSPacket): (r: HandleOutcome)
    ensures r.response.Ok? <==> Process(onRow, s, packet.parsedTokens).Running?
    ensures r.state == Process(onRow, s, packet.parsedTokens).state
    ensures r.response.Err? ==> r.response.error == Process(onRow, s, packet.parsedTokens).error
    ensures r.response.Ok? ==> (r.response.value == Done <==> packet.status == STATUS_EOM)
  {
    match Process(onRow, s, packet.parsedTokens)
    case Stopped(s', e) => HandleOutcome(s', Err(e))
    case Running(s') => HandleOutcome(s', Ok(if packet.status == STATUS_EOM then Done else Continue))
  }

  /**
   The connection feeding a response to the request: packets in order until
   handle throws (the future fails) or returns Done (it succeeds); while
   neither has happened the future is still pending.
   */
  function Drive(onRow: RowCallback, s: BatchState, packets: seq<TDSPacket>): (r: DriveOutcome)
    ensures |s.delivered| <= |r.state.delivered| && r.state.delivered[..|s.delivered|] == s.delivered
    ensures r.result.Succeeded? ==> exists k :: 0 <= k < |packets| && packets[k].status == STATUS_EOM
    decreases |packets|
  {
    if packets == [] then DriveOutcome(s, Pending)
    else
      var h := HandlePacket(onRow, s, packets[0]);
      match h.response
      case Err(e) => DriveOutcome(h.state, Failed(e))
      case Ok(Done) => DriveOutcome(h.state, Succeeded(()))
      case Ok(Continue) => Drive(onRow, h.state, packets[1..])
  }

  // ---------------------------------------------------------------------
  // Reference definitions

  /** The tokens of the response: every packet up to and including the first EOM packet. */
  function ResponseTokens(packets: seq<TDSPacket>): seq<Token>
    decreases |packets|
  {
    if packets == [] then []
    else if packets[0].status == STATUS_EOM then packets[0].parsedTokens
    else packets[0].parsedTokens + ResponseTokens(packets[1..])
  }

  /** The table built from the last column-metadata token of `tokens`, or `table0` if there is none. */
  function LatestTable(table0: Option<LookupTable>, tokens: seq<Token>): Option<LookupTable>
    decreases |tokens|
  {
    if tokens == [] then table0
    else if IsColMetadata(tokens[|tokens| - 1]) then Some(LookupTable(tokens[|tokens| - 1].body.colMetadata))
    else LatestTable(table0, tokens[..|tokens| - 1])
  }

  /**
   The rows of `tokens` in order: one per row token, each paired with the
   table current just before it.
   */
  function RowsOf(table0: Option<LookupTable>, tokens: seq<Token>): seq<TDSRow>
    decreases |tokens|
  {
    if tokens == [] then []
    else
      var init := tokens[..|tokens| - 1];
      var last := tokens[|tokens| - 1];
      RowsOf(table0, init) +
      match LatestTable(table0, init)
      case Some(table) => if IsRow(last) then [TDSRow(last.body.row, table)] else []
      case None => []
  }

  /** The tokens the switch does not send to its default branch: those tagged ROW or COLMETADATA. */
  function Relevant(tokens: seq<Token>): (r: seq<Token>)
    ensures |r| <= |tokens|
    ensures forall i :: 0 <= i < |r| ==> !IsIgnored(r[i])
    decreases |tokens|
  {
    if tokens == [] then []
    else if IsIgnored(tokens[0]) then Relevant(tokens[1..])
    else [tokens[0]] + Relevant(tokens[1..])
  }

  /** A callback that never throws, as rawSql's collecting closure. */
  ghost predicate AcceptsAll(onRow: RowCallback) {
    forall h, row :: onRow(h, row) == Returned
  }

  /** A run of well-formed row tokens. */
  function RowTokens(rows: seq<RowToken>): seq<Token> {
    seq(|rows|, i requires 0 <= i < |rows| => Token(ROW_TOKEN, RowBody(rows[i])))
  }

  /** Row tokens paired with one table. */
  function Paired(rows: seq<RowToken>, table: LookupTable): seq<TDSRow> {
    seq(|rows|, i requires 0 <= i < |rows| => TDSRow(rows[i], table))
  }

  // ---------------------------------------------------------------------
  // Lemmas

  /** Processing a concatenation goes on from where the first part left off. */
  lemma {:induction false} ProcessAppend(onRow: RowCallback, s: BatchState, a: seq<Token>, b: seq<Token>)
    ensures Process(onRow, s, a + b) ==
            match Process(onRow, s, a)
            case Running(s') => Process(onRow, s', b)
            case Stopped(s', e) => Stopped(s', e)
    decreases |a|
  {
    if a == [] {
      assert a + b == b;
    } else {
      assert (a + b)[0] == a[0];
      assert (a + b)[1..] == a[1..] + b;
      match Step(onRow, s, a[0])
      case Running(s') => ProcessAppend(onRow, s', a[1..], b);
      case Stopped(_, _) =>
    }
  }

  /**
   Once a token throws, no later token is looked at: whatever follows, the
   outcome is the same.
   */
  lemma FailureIgnoresRest(onRow: RowCallback, s: BatchState, a: seq<Token>, rest: seq<Token>)
    requires Process(onRow, s, a).Stopped?
    ensures Process(onRow, s, a + rest) == Process(onRow, s, a)
  {
    ProcessAppend(onRow, s, a, rest);
  }

  /**
   Processing grows the row trace only at its end, by the rows of `tokens` in
   token order, and leaves the table built from the last column-metadata token
   (or the one it started with). StoppedRunMatchesReference gives the trace
   of a run that stopped.
   */
  lemma {:induction false} ProcessMatchesReference(onRow: RowCallback, s: BatchState, tokens: seq<Token>)
    requires Process(onRow, s, tokens).Running?
    ensures Process(onRow, s, tokens).state.delivered == s.delivered + RowsOf(s.rowLookupTable, tokens)
    ensures Process(onRow, s, tokens).state.rowLookupTable == LatestTable(s.rowLookupTable, tokens)
    decreases |tokens|
  {
    if tokens != [] {
      var init := tokens[..|tokens| - 1];
      var last := tokens[|tokens| - 1];
      assert tokens == init + [last];
      ProcessAppend(onRow, s, init, [last]);
      if Process(onRow, s, init).Stopped? {
        assert false;
      }
      ProcessMatchesReference(onRow, s, init);
      var mid := Process(onRow, s, init).state;
      assert Process(onRow, s, tokens) == Step(onRow, mid, last);
    }
  }

  /** A stopped run stopped at some token j that the tokens before it reached. */
  lemma {:induction false} StopIndex(onRow: RowCallback, s: BatchState, tokens: seq<Token>)
    requires Process(onRow, s, tokens).Stopped?
    ensures exists j :: 0 <= j < |tokens| && Process(onRow, s, tokens[..j]).Running? &&
                        Step(onRow, Process(onRow, s, tokens[..j]).state, tokens[j]) == Process(onRow, s, tokens)
    decreases |tokens|
  {
    assert tokens[..0] == [];
    if Step(onRow, s, tokens[0]).Running? {
      var s' := Step(onRow, s, tokens[0]).state;
      StopIndex(onRow, s', tokens[1..]);
      var j' :| 0 <= j' < |tokens[1..]| && Process(onRow, s', tokens[1..][..j']).Running? &&
                Step(onRow, Process(onRow, s', tokens[1..][..j']).state, tokens[1..][j']) == Process(onRow, s', tokens[1..]);
      var pre := tokens[..j' + 1];
      assert pre[0] == tokens[0] && pre[1..] == tokens[1..][..j'];
      assert Process(onRow, s, pre) == Process(onRow, s', tokens[1..][..j']);
      assert tokens[j' + 1] == tokens[1..][j'];
    }
  }

  /**
   A run that stopped did so at some token j that threw: everything before j
   was processed, delivering the rows of the tokens before j in token order,
   the outcome is token j's throw, and the stopped state is the state before j.
   */
  lemma StoppedRunMatchesReference(onRow: RowCallback, s: BatchState, tokens: seq<Token>)
    requires Process(onRow, s, tokens).Stopped?
    ensures exists j :: 0 <= j < |tokens| && Process(onRow, s, tokens[..j]).Running? &&
                        Step(onRow, Process(onRow, s, tokens[..j]).state, tokens[j]) == Process(onRow, s, tokens) &&
                        Process(onRow, s, tokens).state == Process(onRow, s, tokens[..j]).state &&
                        Process(onRow, s, tokens).state.delivered == s.delivered + RowsOf(s.rowLookupTable, tokens[..j])
  {
    StopIndex(onRow, s, tokens);
    var j :| 0 <= j < |tokens| && Process(onRow, s, tokens[..j]).Running? &&
             Step(onRow, Process(onRow, s, tokens[..j]).state, tokens[j]) == Process(onRow, s, tokens);
    ProcessMatchesReference(onRow, s, tokens[..j]);
  }

  /** The rows delivered by a successful run, one for each row token, in order. */
  lemma RowsInTokenOrder(onRow: RowCallback, tokens: seq<Token>)
    requires Process(onRow, Initial, tokens).Running?
    ensures Process(onRow, Initial, tokens).state.delivered == RowsOf(None, tokens)
  {
    ProcessMatchesReference(onRow, Initial, tokens);
  }

  /** If processing reaches token `j` and that token throws, the outcome is that throw. */
  lemma StopsAt(onRow: RowCallback, s: BatchState, tokens: seq<Token>, j: nat)
    requires j < |tokens|
    requires Process(onRow, s, tokens[..j]).Running?
    requires Step(onRow, Process(onRow, s, tokens[..j]).state, tokens[j]).Stopped?
    ensures Process(onRow, s, tokens) == Step(onRow, Process(onRow, s, tokens[..j]).state, tokens[j])
  {
    assert tokens == tokens[..j] + tokens[j..];
    ProcessAppend(onRow, s, tokens[..j], tokens[j..]);
    assert tokens[j..][0] == tokens[j];
  }

  /**
   A token tagged ROW or COLMETADATA whose body is of another kind fails with
   the matching protocol error, in the state before it: no row for it, no table change.
   */
  lemma MistypedTokenFails(onRow: RowCallback, s: BatchState, tokens: seq<Token>, j: nat)
    requires j < |tokens| && IsMistyped(tokens[j])
    requires Process(onRow, s, tokens[..j]).Running?
    ensures Process(onRow, s, tokens) ==
            Stopped(Process(onRow, s, tokens[..j]).state,
                    if tokens[j].tag == ROW_TOKEN then RowReadError else ColMetadataReadError)
  {
    StopsAt(onRow, s, tokens, j);
  }

  /** A row token reached while no lookup table is set fails with MissingMetadata and produces no row. */
  lemma MissingTableFails(onRow: RowCallback, s: BatchState, tokens: seq<Token>, j: nat)
    requires j < |tokens| && IsRow(tokens[j])
    requires Process(onRow, s, tokens[..j]).Running?
    requires Process(onRow, s, tokens[..j]).state.rowLookupTable.None?
    ensures Process(onRow, s, tokens) == Stopped(Process(onRow, s, tokens[..j]).state, MissingMetadata)
  {
    StopsAt(onRow, s, tokens, j);
  }

  /**
   The converse of MistypedTokenFails, MissingTableFails and
   CallbackErrorAborts: a batch stops only at a reached token that is
   mistyped, or is a row with no table, or is a row the callback throws on,
   and it stops with that token's error in the state before it.
   */
  lemma StopReason(onRow: RowCallback, s: BatchState, tokens: seq<Token>)
    requires Process(onRow, s, tokens).Stopped?
    ensures exists j :: 0 <= j < |tokens| && Process(onRow, s, tokens[..j]).Running? &&
                        Process(onRow, s, tokens).state == Process(onRow, s, tokens[..j]).state &&
                        ThrowCause(onRow, Process(onRow, s, tokens[..j]).state, tokens[j], Process(onRow, s, tokens).error)
  {
    StopIndex(onRow, s, tokens);
  }

  /** Ignored tokens change nothing. */
  lemma {:induction false} IgnoredPrefixRuns(onRow: RowCallback, s: BatchState, tokens: seq<Token>)
    requires forall i :: 0 <= i < |tokens| ==> IsIgnored(tokens[i])
    ensures Process(onRow, s, tokens) == Running(s)
    decreases |tokens|
  {
    if tokens != [] {
      IgnoredPrefixRuns(onRow, s, tokens[1..]);
    }
  }

  /**
   In a request with no table yet, a first row token that no column-metadata
   token precedes always fails, with MissingMetadata if it is a well-formed
   row, and no row is ever delivered.
   */
  lemma {:induction false} RowBeforeMetadataFails(onRow: RowCallback, s: BatchState, tokens: seq<Token>, j: nat)
    requires s.rowLookupTable.None?
    requires j < |tokens| && tokens[j].tag == ROW_TOKEN
    requires forall i :: 0 <= i < j ==> IsIgnored(tokens[i])
    ensures Process(onRow, s, tokens) == Stopped(s, if tokens[j].body.RowBody? then MissingMetadata else RowReadError)
  {
    IgnoredPrefixRuns(onRow, s, tokens[..j]);
    StopsAt(onRow, s, tokens, j);
  }

  /**
   A callback that throws on a row ends the batch with its error, in the
   state before that row: later tokens are never processed and handle
   returns neither Continue nor Done.
   */
  lemma CallbackErrorAborts(onRow: RowCallback, s: BatchState, tokens: seq<Token>, j: nat, status: Byte)
    requires j < |tokens| && IsRow(tokens[j])
    requires Process(onRow, s, tokens[..j]).Running?
    requires Process(onRow, s, tokens[..j]).state.rowLookupTable.Some?
    requires onRow(Process(onRow, s, tokens[..j]).state.delivered,
                   TDSRow(tokens[j].body.row, Process(onRow, s, tokens[..j]).state.rowLookupTable.value)).Threw?
    ensures var mid := Process(onRow, s, tokens[..j]).state;
            var row := TDSRow(tokens[j].body.row, mid.rowLookupTable.value);
            Process(onRow, s, tokens) == Stopped(mid, CallbackError(onRow(mid.delivered, row).reason))
    ensures HandlePacket(onRow, s, TDSPacket(status, tokens)).response.Err?
  {
    StopsAt(onRow, s, tokens, j);
  }

  /** Dropping the ignored tokens does not change the outcome. */
  lemma {:induction false} IgnoredTokensIrrelevant(onRow: RowCallback, s: BatchState, tokens: seq<Token>)
    ensures Process(onRow, s, tokens) == Process(onRow, s, Relevant(tokens))
    decreases |tokens|
  {
    if tokens != [] {
      match Step(onRow, s, tokens[0])
      case Running(s') =>
        IgnoredTokensIrrelevant(onRow, s', tokens[1..]);
        if !IsIgnored(tokens[0]) {
          var r := [tokens[0]] + Relevant(tokens[1..]);
          assert r[0] == tokens[0] && r[1..] == Relevant(tokens[1..]);
        }
      case Stopped(_, _) =>
        var r := [tokens[0]] + Relevant(tokens[1..]);
        assert r[0] == tokens[0];
    }
  }

  /** A run of row tokens under table `table`, with a callback that never throws. */
  lemma {:induction false} RowRun(onRow: RowCallback, s: BatchState, rows: seq<RowToken>, table: LookupTable)
    requires AcceptsAll(onRow) && s.rowLookupTable == Some(table)
    ensures Process(onRow, s, RowTokens(rows)) == Running(s.(delivered := s.delivered + Paired(rows, table)))
    decreases |rows|
  {
    if rows == [] {
      assert RowTokens(rows) == [];
    } else {
      var s' := s.(delivered := s.delivered + [TDSRow(rows[0], table)]);
      assert onRow(s.delivered, TDSRow(rows[0], table)) == Returned;
      assert RowTokens(rows)[1..] == RowTokens(rows[1..]);
      RowRun(onRow, s', rows[1..], table);
      assert s.delivered + Paired(rows, table) == s'.delivered + Paired(rows[1..], table);
    }
  }

  /**
   Two result sets: metadata A, rows, metadata B, rows. The first rows are
   read against A and the second against B, and B is the table left behind.
   */
  lemma TwoResultSets(onRow: RowCallback, s: BatchState, a: ColMetadataToken, rowsA: seq<RowToken>,
                      b: ColMetadataToken, rowsB: seq<RowToken>)
    requires AcceptsAll(onRow)
    ensures Process(onRow, s, [Token(COLMETADATA_TOKEN, ColMetadataBody(a))] + RowTokens(rowsA) +
                              [Token(COLMETADATA_TOKEN, ColMetadataBody(b))] + RowTokens(rowsB)) ==
            Running(BatchState(Some(LookupTable(b)),
                               s.delivered + Paired(rowsA, LookupTable(a)) + Paired(rowsB, LookupTable(b))))
  {
    var ma := [Token(COLMETADATA_TOKEN, ColMetadataBody(a))];
    var mb := [Token(COLMETADATA_TOKEN, ColMetadataBody(b))];
    var sa := s.(rowLookupTable := Some(LookupTable(a)));
    var sa' := sa.(delivered := sa.delivered + Paired(rowsA, LookupTable(a)));
    var sb := sa'.(rowLookupTable := Some(LookupTable(b)));
    RowRun(onRow, sa, rowsA, LookupTable(a));
    RowRun(onRow, sb, rowsB, LookupTable(b));
    ProcessAppend(onRow, s, ma, RowTokens(rowsA));
    ProcessAppend(onRow, s, ma + RowTokens(rowsA), mb);
    ProcessAppend(onRow, s, ma + RowTokens(rowsA) + mb, RowTokens(rowsB));
  }

  /**
   Feeding a response packet by packet is processing all its tokens as one
   stream: the lookup table carries over from packet to packet. A future that
   succeeded or is still pending corresponds to a stream that ran through, a
   failed one to a stream that stopped with the same error; a future is still
   pending only when no packet is an EOM packet.
   */
  lemma {:induction false} DriveIsProcessOfResponse(onRow: RowCallback, s: BatchState, packets: seq<TDSPacket>)
    ensures var d := Drive(onRow, s, packets);
            var p := Process(onRow, s, ResponseTokens(packets));
            (d.result.Succeeded? ==> p == Running(d.state)) &&
            (d.result.Failed? ==> p == Stopped(d.state, d.result.error)) &&
            (d.result.Pending? ==> p == Running(d.state))
    ensures Drive(onRow, s, packets).result.Pending? ==> forall k :: 0 <= k < |packets| ==> packets[k].status != STATUS_EOM
    decreases |packets|
  {
    if packets != [] {
      var toks := packets[0].parsedTokens;
      var h := HandlePacket(onRow, s, packets[0]);
      if packets[0].status != STATUS_EOM {
        ProcessAppend(onRow, s, toks, ResponseTokens(packets[1..]));
        if h.response.Ok? {
          DriveIsProcessOfResponse(onRow, h.state, packets[1..]);
          if Drive(onRow, s, packets).result.Pending? {
            forall k | 0 <= k < |packets| ensures packets[k].status != STATUS_EOM {
              if k > 0 { assert packets[k] == packets[1..][k - 1]; }
            }
          }
        }
      }
    }
  }

  /**
   When the response's token stream stops (a row before any metadata in a
   later packet, a mistyped token, a throwing callback), the request's future
   fails with exactly that error, in the state the stream stopped in.
   */
  lemma StoppedStreamFailsRequest(onRow: RowCallback, s: BatchState, packets: seq<TDSPacket>)
    requires Process(onRow, s, ResponseTokens(packets)).Stopped?
    ensures var p := Process(onRow, s, ResponseTokens(packets));
            Drive(onRow, s, packets) == DriveOutcome(p.state, Failed(p.error))
  {
    DriveIsProcessOfResponse(onRow, s, packets);
  }

  /**
   A request that succeeded has delivered exactly the rows of its response's
   tokens, in order, each read against the latest metadata even when that
   arrived in an earlier packet.
   */
  lemma DriveDeliversResponseRows(onRow: RowCallback, packets: seq<TDSPacket>)
    requires Drive(onRow, Initial, packets).result.Succeeded?
    ensures Drive(onRow, Initial, packets).state.delivered == RowsOf(None, ResponseTokens(packets))
    ensures Drive(onRow, Initial, packets).state.rowLookupTable == LatestTable(None, ResponseTokens(packets))
  {
    DriveIsProcessOfResponse(onRow, Initial, packets);
    ProcessMatchesReference(onRow, Initial, ResponseTokens(packets));
  }

  /** A callback that never throws can never be the reason a request fails. */
  lemma {:induction false} NoCallbackErrorWhenAccepting(onRow: RowCallback, s: BatchState, packets: seq<TDSPacket>)
    requires AcceptsAll(onRow)
    ensures Drive(onRow, s, packets).result.Failed? ==> !Drive(onRow, s, packets).result.error.CallbackError?
    decreases |packets|
  {
    if packets != [] {
      ProcessNeverThrowsCallbackError(onRow, s, packets[0].parsedTokens);
      NoCallbackErrorWhenAccepting(onRow, HandlePacket(onRow, s, packets[0]).state, packets[1..]);
    }
  }

  lemma {:induction false} ProcessNeverThrowsCallbackError(onRow: RowCallback, s: BatchState, tokens: seq<Token>)
    requires AcceptsAll(onRow)
    ensures Process(onRow, s, tokens).Stopped? ==> !Process(onRow, s, tokens).error.CallbackError?
    decreases |tokens|
  {
    if tokens != [] {
      match Step(onRow, s, tokens[0])
      case Running(s') => ProcessNeverThrowsCallbackError(onRow, s', tokens[1..]);
      case Stopped(_, _) =>
    }
  }
}
