// Shared vocabulary: optional values, results, digests, bounded counters and
// the numbered record files that every journal of the system is made of.
module Base {

  datatype Option<+T> = None | Some(value: T)

  datatype Result<+T, +E> = Ok(value: T) | Err(error: E)

  // A SHA-256 digest read as a number: lower-case hexadecimal of fixed length
  // sorts exactly like the number it writes.
  type Digest = nat

  const U64_MAX: nat := 0xFFFF_FFFF_FFFF_FFFF

  // The checked increment of a 64-bit counter.
  function CheckedAdd1(n: nat): Option<nat> {
    if n < U64_MAX then Some(n + 1) else None
  }

  predicate IsSpace(c: char) {
    c == ' ' || '\t' <= c <= '\r'
  }

  // Holds more than white space.
  predicate Required(s: string) {
    exists i :: 0 <= i < |s| && !IsSpace(s[i])
  }

  predicate IsControl(c: char) {
    c < ' ' || c == 127 as char
  }

  // Identifiers are non-blank, at most 256 long and free of control characters.
  predicate ValidId(s: string) {
    && |s| <= 256
    && Required(s)
    && (forall i :: 0 <= i < |s| ==> !IsControl(s[i]))
  }

  // Refused are the identifiers that are blank, too long, or hold a control character.
  lemma RefusedIds(s: string)
    ensures !Required(s) <==> forall c :: c in s ==> c == ' ' || '\t' <= c <= '\r'
    ensures !ValidId(s) <==>
            |s| > 256 || (forall c :: c in s ==> c == ' ' || '\t' <= c <= '\r') || exists c :: c in s && (c < ' ' || c == 127 as char)
  {
    forall i | 0 <= i < |s| ensures s[i] in s {
    }
  }

  // What a numbered record file holds: one complete canonical record, or bytes
  // that are not one (an interrupted write).
  datatype File<+E> = Torn | Whole(entry: E)

  // What can happen to one exclusive-create write: nothing goes wrong; no file
  // appears; a partial file appears; or the file is complete but the call still
  // reports failure (directory sync error, or the process dies right after).
  datatype Fault = NoFault | NotWritten | TornWrite | LateFailure

  // The journal after an attempt to create its next numbered file.
  function WriteNext<E>(files: seq<File<E>>, entry: E, fault: Fault): seq<File<E>> {
    match fault
    case NoFault | LateFailure => files + [Whole(entry)]
    case NotWritten => files
    case TornWrite => files + [Torn]
  }

  // The records of a journal up to a trailing torn file.
  function Complete<E>(j: seq<File<E>>): seq<File<E>> {
    if j != [] && j[|j| - 1].Torn? then j[..|j| - 1] else j
  }

  lemma SubsetSize<T>(a: set<T>, b: set<T>)
    requires a <= b
    ensures |a| <= |b|
  {
    assert b == a + (b - a);
  }
}
