/**
 * Types shared by the three redirect handlers: an optional value, a DynamoDB
 * attribute as the low-level clients return it, a JSON object kept symbolic,
 * and the key-value store that every handler reads from.
 */
module Common {

  datatype Option<+T> = None | Some(value: T)

  /** A DynamoDB attribute value as the low-level clients (boto3, the Rust SDK)
      return it: either a string attribute (type tag `S`) or some other type. */
  datatype Attr = S(s: string) | NonString

  /** The text a JSON serialiser produces for an object whose members are these
      string-valued pairs, in this order. The encoding itself is not modelled. */
  datatype JsonObject = JsonObject(members: seq<(string, string)>)

  /** One point read: the table, the value of the `host` key, and the
      attributes asked for (`None` asks for the whole item). */
  datatype ReadRequest = ReadRequest(table: string, key: string, projection: Option<seq<string>>)

  /**
   * The key-value store as the handlers see it. What a read returns (an item,
   * no item, or an exception) is fixed by `answer`, which stands for the
   * table's contents and the health of the service at read time. The ghost
   * `log` records every read issued, so that callers can state how many reads
   * they make and with which key.
   */
  class Store<O> {
    const answer: ReadRequest -> O
    ghost var log: seq<ReadRequest>

    constructor (answer: ReadRequest -> O)
      ensures this.answer == answer && log == []
    {
      this.answer := answer;
      log := [];
    }

    method Get(request: ReadRequest) returns (outcome: O)
      modifies this
      ensures log == old(log) + [request]
      ensures outcome == answer(request)
    {
      log := log + [request];
      outcome := answer(request);
    }
  }
}
