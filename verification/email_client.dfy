/** What the handlers hand to the email client's `send_email`. The client
    itself (src/email_client.rs) is not part of this model: a send is
    described by its arguments, and its outcome arrives as a parameter. */
module EmailClient {
  /** The arguments of one `send_email` call, in the order the client takes
      them: recipient, subject, HTML body, plain-text body. */
  datatype Message = Message(recipient: string, subject: string, htmlBody: string, textBody: string)

  /** `sub` occurs in `s` starting at index `i`. */
  predicate OccursAt(s: string, sub: string, i: int) {
    0 <= i <= |s| - |sub| && s[i..i + |sub|] == sub
  }

  /** `sub` occurs somewhere inside `s`. */
  predicate Contains(s: string, sub: string) {
    exists i | 0 <= i <= |s| :: OccursAt(s, sub, i)
  }

  lemma ContainsInMiddle(prefix: string, sub: string, suffix: string)
    ensures Contains(prefix + sub + suffix, sub)
  {
    var s := prefix + sub + suffix;
    assert s[|prefix|..|prefix| + |sub|] == sub;
    assert OccursAt(s, sub, |prefix|);
  }
}
