/** The accepted address in the command line of the logon task. */
module LogonAddress {
  import opened Text
  import opened Autostart
  import opened Mac

  /** Every address the daemon accepts may be pushed verbatim onto the command
      line of the logon task. */
  lemma AcceptedAddressIsRaw(s: string)
    requires ParseBytes(Bytes(s)).Ok?
    ensures RawArgument(s)
  {
    AcceptedBytes(Bytes(s));
    assert forall i :: 0 <= i < |Bytes(s)| ==> AddressChar(Bytes(s)[i]) && (Bytes(s)[i] as int) < 128;
    HighOrAscii(s);
    AsciiBytes(s);
    assert s[0] in s;
  }
}
