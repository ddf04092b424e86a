/**
 * `generateTwiML` from lib/twilio.ts: the TwiML document that makes Twilio
 * read one message aloud. The Twilio REST wrappers of the same file are
 * foreign calls and are not part of this module.
 */
module Twilio {
  import opened Options

  const XmlDeclaration := "<?xml version=\"1.0\" encoding=\"UTF-8\"?>"

  /** Everything before the message: the declaration, `<Response>` and the opening `<Say>`. */
  const SayOpen := XmlDeclaration + "\n<Response>\n  <Say voice=\"Polly.Joanna\" language=\"fr-FR\">"

  /** Everything after the message. */
  const SayClose := "</Say>\n</Response>"

  /**
   * The document for one spoken message. The message is interpolated as it
   * is: `<` and `&` are not escaped.
   */
  function GenerateTwiML(message: string): string {
    SayOpen + message + SayClose
  }

  /** Reads the spoken text back out of a document made by `GenerateTwiML`. */
  function SayText(doc: string): Option<string> {
    if |doc| >= |SayOpen| + |SayClose| && doc[..|SayOpen|] == SayOpen && doc[|doc| - |SayClose|..] == SayClose
    then Some(doc[|SayOpen|..|doc| - |SayClose|])
    else None
  }

  /**
   * Removing the fixed prefix and suffix gives back exactly the message,
   * whatever characters it holds: the text is inserted verbatim, markup
   * characters included.
   */
  lemma SayTextRoundTrip(message: string)
    ensures SayText(GenerateTwiML(message)) == Some(message)
  {
    var doc := GenerateTwiML(message);
    assert doc[..|SayOpen|] == SayOpen;
    assert doc[|doc| - |SayClose|..] == SayClose;
    assert doc[|SayOpen|..|doc| - |SayClose|] == message;
  }

  /** Distinct messages give distinct documents. */
  lemma GenerateTwiMLInjective(a: string, b: string)
    ensures GenerateTwiML(a) == GenerateTwiML(b) ==> a == b
  {
    SayTextRoundTrip(a);
    SayTextRoundTrip(b);
  }

  /** Only the `<Say>` body depends on the message: the rest is a fixed frame of constant length. */
  lemma GenerateTwiMLFrame(message: string)
    ensures |GenerateTwiML(message)| == |message| + |SayOpen| + |SayClose|
    ensures StartsWithDeclaration(GenerateTwiML(message))
    ensures GenerateTwiML(message)[|SayOpen| + |message|..] == SayClose
  {
  }

  predicate StartsWithDeclaration(doc: string) {
    |XmlDeclaration| <= |doc| && doc[..|XmlDeclaration|] == XmlDeclaration
  }
}
