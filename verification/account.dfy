/** The friendbot's own implementation of the transaction builder's Account interface. */
module Friendbot {
  import opened Wrappers
  import opened Errors
  import Xdr
  import StrConv

  /** The part of Aurora's account record that RefreshSequenceNumber reads: the sequence number as decimal text. */
  datatype AccountDetail = AccountDetail(Sequence: string)

  /** The error strconv reports for text that is not an int64; its wording is not modelled. */
  const ParseIntError: Error := New("strconv.ParseInt: invalid syntax or value out of range")

  class Account {
    var AccountID: string
    var Sequence: Xdr.SequenceNumber

    constructor (accountID: string, sequence: Xdr.SequenceNumber)
      ensures AccountID == accountID && Sequence == sequence
    {
      AccountID := accountID;
      Sequence := sequence;
    }

    /** A value-receiver method: it reads the account and changes nothing. */
    function GetAccountID(): (id: string)
      reads this
      ensures id == AccountID
    {
      AccountID
    }

    /**
     * A value-receiver method: the increment happens on a copy, so the
     * account keeps its Sequence and every call returns the same number.
     * The increment wraps at the int64 maximum; the error is always nil.
     */
    function IncrementSequenceNumber(): (r: (Xdr.SequenceNumber, Option<Error>))
      reads this
      ensures r.1 == None
      ensures Sequence < Xdr.MaxInt64 ==> r.0 == Sequence + 1
      ensures Sequence == Xdr.MaxInt64 ==> r.0 == Xdr.MinInt64
    {
      (Xdr.WrapInt64(Sequence + 1), None)
    }

    /**
     * A pointer-receiver method. The outcome of the Aurora request for
     * GetAccountID() is passed in as `fetched`.
     */
    method RefreshSequenceNumber(fetched: Result<AccountDetail, Error>) returns (err: Option<Error>)
      modifies this`Sequence
      ensures fetched.Failure? ==>
        err == Some(Wrap(fetched.error, "getting account detail")) && Sequence == old(Sequence)
      ensures fetched.Success? && StrConv.ParseInt(fetched.value.Sequence).None? ==>
        err == Some(Wrap(ParseIntError, "parsing account seqnum")) && Sequence == old(Sequence)
      ensures fetched.Success? && StrConv.ParseInt(fetched.value.Sequence).Some? ==>
        err == None && Sequence == StrConv.ParseInt(fetched.value.Sequence).value
    {
      match fetched {
        case Failure(e) =>
          return Some(Wrap(e, "getting account detail"));
        case Success(detail) =>
          var parsed := StrConv.ParseInt(detail.Sequence);
          match parsed {
            case None =>
              return Some(Wrap(ParseIntError, "parsing account seqnum"));
            case Some(n) =>
              Sequence := n;
              return None;
          }
      }
    }
  }

  /**
   * When Aurora reports the sequence number n, as it formats it, a refresh
   * followed by an increment yields the sequence number after n.
   */
  method RefreshThenIncrement(a: Account, n: Xdr.SequenceNumber) returns (next: Xdr.SequenceNumber, err: Option<Error>)
    modifies a`Sequence
    ensures err == None && a.Sequence == n
    ensures next == Xdr.WrapInt64(n + 1) && a.AccountID == old(a.AccountID)
  {
    StrConv.ParseFormatRoundTrip(n);
    err := a.RefreshSequenceNumber(Success(AccountDetail(StrConv.FormatInt(n))));
    var r := a.IncrementSequenceNumber();
    next := r.0;
  }
}
