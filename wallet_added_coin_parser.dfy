/** The wallet parser that turns "Adding coin" log lines into coin records.
    The regular expression itself is not modelled: its `findall` result is
    the input, one (timestamp text, amount digits) pair per matching line, in
    the order the lines appear. Timestamp parsing is a function passed in. */
module WalletParsers {
  import opened Maybe
  import opened Text

  /** One `findall` result: the `([0-9:.]*)` and `([0-9]*)` captures. */
  datatype CoinMatch = CoinMatch(timestampText: string, amountDigits: Digits)

  /** A received coin: when, and how many mojos. */
  datatype WalletAddedCoinMessage<T> = WalletAddedCoinMessage(timestamp: T, amountMojos: nat)

  /** Which match made `parse` raise: `int('')` on an empty amount capture,
      or a timestamp the date parser rejects. */
  datatype ParseError = AmountUnreadable(index: nat) | TimestampUnreadable(index: nat)

  /** The fork scaling applied to an amount: Chives and Staicoin count
      their smallest unit differently from the main chain. */
  function Multiplier(prefix: string): (m: nat)
    ensures m in {1, 1000, 10000}
    ensures m != 1 <==> prefix == "chives" || prefix == "staicoin"
  {
    if prefix == "chives" then 10000
    else if prefix == "staicoin" then 1000
    else 1
  }

  /** A match `parse` can turn into a record without raising. */
  predicate Readable<T>(m: CoinMatch, parseTimestamp: string -> Option<T>)
  {
    m.amountDigits != "" && parseTimestamp(m.timestampText).Some?
  }

  /** The record a readable match becomes under the given fork prefix. */
  function Record<T>(prefix: string, m: CoinMatch, parseTimestamp: string -> Option<T>): WalletAddedCoinMessage<T>
    requires Readable(m, parseTimestamp)
  {
    WalletAddedCoinMessage(parseTimestamp(m.timestampText).value, DigitsValue(m.amountDigits) * Multiplier(prefix))
  }

  /** A line whose amount field holds the number `x` written out in decimal
      parses to `x` scaled by the fork: times 10000 for "chives", times 1000
      for "staicoin", unchanged for any other prefix. */
  lemma ScaledAmount<T>(prefix: string, time: string, x: nat, parseTimestamp: string -> Option<T>)
    requires parseTimestamp(time).Some?
    ensures var m := CoinMatch(time, NatToDecimal(x));
            Readable(m, parseTimestamp)
            && Record(prefix, m, parseTimestamp).amountMojos
               == x * (if prefix == "chives" then 10000 else if prefix == "staicoin" then 1000 else 1)
  {
    DigitsValueOfDecimal(x);
  }

  class WalletAddedCoinParser {
    /** The fork's logger prefix, also spliced into the regular expression. */
    const prefix: string

    constructor (prefix: string)
      ensures this.prefix == prefix
    {
      this.prefix := prefix;
    }

    /** One record per match, in match order; the first match that cannot be
        read makes the whole call fail, as the raised exception does. The
        parser's fields are constants, so a call changes nothing. */
    method Parse<T>(matches: seq<CoinMatch>, parseTimestamp: string -> Option<T>)
      returns (result: Result<seq<WalletAddedCoinMessage<T>>, ParseError>)
      ensures result.Success? <==> forall i :: 0 <= i < |matches| ==> Readable(matches[i], parseTimestamp)
      ensures result.Success? ==>
                |result.value| == |matches|
                && forall i :: 0 <= i < |matches| ==> result.value[i] == Record(prefix, matches[i], parseTimestamp)
      ensures result.Failure? ==>
                var k := result.error.index;
                k < |matches| && !Readable(matches[k], parseTimestamp)
                && (forall i :: 0 <= i < k ==> Readable(matches[i], parseTimestamp))
                && (result.error.AmountUnreadable? <==> matches[k].amountDigits == "")
    {
      var parsedMessages: seq<WalletAddedCoinMessage<T>> := [];
      for i := 0 to |matches|
        invariant |parsedMessages| == i
        invariant forall k :: 0 <= k < i ==>
                    Readable(matches[k], parseTimestamp) && parsedMessages[k] == Record(prefix, matches[k], parseTimestamp)
      {
        var m := matches[i];
        if m.amountDigits == "" {
          return Failure(AmountUnreadable(i));
        }
        var mojos := DigitsValue(m.amountDigits);
        if prefix == "chives" {
          mojos := mojos * 10000;
        } else if prefix == "staicoin" {
          mojos := mojos * 1000;
        }
        var timestamp := parseTimestamp(m.timestampText);
        if timestamp.None? {
          return Failure(TimestampUnreadable(i));
        }
        parsedMessages := parsedMessages + [WalletAddedCoinMessage(timestamp.value, mojos)];
      }
      return Success(parsedMessages);
    }
  }
}
