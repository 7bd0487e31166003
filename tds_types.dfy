/**
 The values shared by the request and connection models: bytes, the
 outcome wrappers (a thrown Swift error, an EventLoopFuture's completion),
 parsed tokens, rows and inbound packets.
 */
module TDSTypes {

  type Byte = b: int | 0 <= b < 256

  datatype Option<+T> = None | Some(value: T)

  /** Every error the modelled code can raise or pass on. */
  datatype Error =
    | ProtocolError(message: string)   // TDSError.protocolError
    | MissingMetadata                  // a row arrived before any column metadata (the source traps)
    | CallbackError(reason: string)    // whatever the caller's onRow threw
    | ChannelAlreadyClosed             // the channel refused to close because it is not active
    | EventLoopShutdown                // the event loop rejected a submitted task

  /** A Swift `throws` result. */
  datatype Result<+T> = Ok(value: T) | Err(error: Error)

  /** The completion of an EventLoopFuture: Pending when it has not completed yet. */
  datatype Future<+T> = Succeeded(value: T) | Failed(error: Error) | Pending

  /** Token type bytes of the TDS token stream (MS-TDS, section 2.2.7). */
  const ROW_TOKEN: Byte := 0xD1
  const COLMETADATA_TOKEN: Byte := 0x81

  /** Packet header status byte of the final packet of a message. */
  const STATUS_EOM: Byte := 0x01

  /** One column descriptor of a COLMETADATA token; its fields are not interpreted here. */
  datatype ColumnDescriptor = ColumnDescriptor(colName: string, dataType: Byte)

  /** TDSTokens.ColMetadataToken: the schema of the following rows. */
  datatype ColMetadataToken = ColMetadataToken(columns: seq<ColumnDescriptor>)

  /** TDSTokens.RowToken: the raw column values of one row. */
  datatype RowToken = RowToken(colData: seq<seq<Byte>>)

  /**
   The object a token turned out to be. A token whose tag says ROW but whose
   body is not a RowBody is one the source's `as? RowToken` cast rejects.
   */
  datatype TokenBody =
    | RowBody(row: RowToken)
    | ColMetadataBody(colMetadata: ColMetadataToken)
    | OtherBody

  /** A parsed token: its type tag and its body. */
  datatype Token = Token(tag: Byte, body: TokenBody)

  /** TDSRow.LookupTable(colMetadata:), an opaque constructor. */
  datatype LookupTable = LookupTable(colMetadata: ColMetadataToken)

  /** TDSRow(dataRow:lookupTable:), an opaque constructor. */
  datatype TDSRow = TDSRow(dataRow: RowToken, lookupTable: LookupTable)

  /**
   An inbound packet: its header status byte and the tokens the token parser
   yields once the packet's payload has been written to it.
   */
  datatype TDSPacket = TDSPacket(status: Byte, parsedTokens: seq<Token>)

  /** TDSPacketResponse. */
  datatype PacketResponse = Continue | Done

  /** The SQLBatch message payload. */
  datatype RawSqlBatchMessage = RawSqlBatchMessage(sqlText: string)

  /** What a call of the caller's row callback did. */
  datatype CallbackOutcome = Returned | Threw(reason: string)

  /**
   The caller's onRow closure, as a function of the rows it has accepted so
   far and the row it is given; any deterministic closure is one of these.
   */
  type RowCallback = (seq<TDSRow>, TDSRow) -> CallbackOutcome
}
