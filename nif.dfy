/**
 * The Spanish NIF/NIE format both the employee and the user forms accept:
 * nine characters, either a digit or X/Y/Z followed by seven digits and a
 * control letter, or an organisation letter followed by seven digits and a
 * control letter A-J or digit.
 */
module Nif {
  import opened Text

  predicate IsUpper(c: char)
  {
    'A' <= c <= 'Z'
  }

  /** `[XYZ\d]`: the first character of a personal NIF or a NIE. */
  predicate PersonalLead(c: char)
  {
    c == 'X' || c == 'Y' || c == 'Z' || IsDigit(c)
  }

  /** `[A-HJ-NP-SUVW]`: the first character of an organisation NIF. */
  predicate OrganisationLead(c: char)
  {
    ('A' <= c <= 'H') || ('J' <= c <= 'N') || ('P' <= c <= 'S') || c == 'U' || c == 'V' || c == 'W'
  }

  /** `[A-J\d]`: the control character of an organisation NIF. */
  predicate OrganisationControl(c: char)
  {
    ('A' <= c <= 'J') || IsDigit(c)
  }

  /** Seven digits at positions 1..7. */
  predicate SevenDigits(s: string)
    requires |s| == 9
  {
    forall i :: 1 <= i < 8 ==> IsDigit(s[i])
  }

  /** The anchored alternation of the two patterns. */
  predicate ValidNif(s: string)
  {
    |s| == 9 && SevenDigits(s)
    && ((PersonalLead(s[0]) && IsUpper(s[8])) || (OrganisationLead(s[0]) && OrganisationControl(s[8])))
  }

  /**
   * The two alternatives never clash: their leading classes are disjoint,
   * so the lead alone decides which control-character class applies; and
   * I, O and T never lead an accepted NIF.
   */
  lemma NifAlternatives(s: string)
    ensures ValidNif(s) && PersonalLead(s[0]) ==> IsUpper(s[8]) && !OrganisationLead(s[0])
    ensures ValidNif(s) && OrganisationLead(s[0]) ==> OrganisationControl(s[8]) && !PersonalLead(s[0])
    ensures ValidNif(s) ==> s[0] != 'I' && s[0] != 'O' && s[0] != 'T'
    ensures ValidNif(s) ==> |s| == 9 && forall i :: 1 <= i < 8 ==> IsDigit(s[i])
  {
  }

  // ---------------------------------------------------------------------
  // The pattern as an automaton

  datatype Branch = PersonalBranch | OrganisationBranch

  /**
   * The states of a left-to-right scan of the pattern: before the lead, after
   * the lead and some of the seven digits of one alternative, after the
   * control character, and failed.
   */
  datatype ScanState = Lead | Digits(branch: Branch, count: nat) | Matched | Failed

  /** The control-character class of an alternative. */
  predicate ControlOf(branch: Branch, c: char)
  {
    if branch == PersonalBranch then IsUpper(c) else OrganisationControl(c)
  }

  /** One character of the scan. */
  function Step(st: ScanState, c: char): ScanState
  {
    match st
    case Lead =>
      if PersonalLead(c) then Digits(PersonalBranch, 0)
      else if OrganisationLead(c) then Digits(OrganisationBranch, 0)
      else Failed
    case Digits(b, k) =>
      if k < 7 then (if IsDigit(c) then Digits(b, k + 1) else Failed)
      else if ControlOf(b, c) then Matched else Failed
    case Matched => Failed
    case Failed => Failed
  }

  function Scan(st: ScanState, s: string): ScanState
    decreases |s|
  {
    if |s| == 0 then st else Scan(Step(st, s[0]), s[1..])
  }

  /** The string is accepted when the scan from the lead ends right after a control character. */
  predicate ScanAccepts(s: string)
  {
    Scan(Lead, s) == Matched
  }

  lemma {:induction false} FailedStays(s: string)
    ensures Scan(Failed, s) == Failed
    decreases |s|
  {
    if |s| > 0 {
      FailedStays(s[1..]);
    }
  }

  /** After the lead and k digits, the scan accepts exactly the remaining digits and a control character. */
  lemma {:induction false} DigitsScan(b: Branch, k: nat, s: string)
    requires k <= 7
    ensures Scan(Digits(b, k), s) == Matched <==>
      |s| == 8 - k && (forall i :: 0 <= i < 7 - k ==> IsDigit(s[i])) && ControlOf(b, s[7 - k])
    decreases |s|
  {
    if |s| > 0 {
      if k < 7 {
        if IsDigit(s[0]) {
          DigitsScan(b, k + 1, s[1..]);
          if |s| == 8 - k {
            assert forall i :: 0 < i < 7 - k ==> (IsDigit(s[i]) <==> IsDigit(s[1..][i - 1]));
          }
        } else {
          FailedStays(s[1..]);
        }
      } else if ControlOf(b, s[0]) {
        if |s| > 1 {
          FailedStays(s[2..]);
          assert s[1..][1..] == s[2..];
        }
      } else {
        FailedStays(s[1..]);
      }
    }
  }

  /** The scan and the alternation accept the same strings. */
  lemma ScanMatchesPattern(s: string)
    ensures ScanAccepts(s) <==> ValidNif(s)
  {
    if |s| == 0 {
    } else if PersonalLead(s[0]) {
      DigitsScan(PersonalBranch, 0, s[1..]);
    } else if OrganisationLead(s[0]) {
      DigitsScan(OrganisationBranch, 0, s[1..]);
    } else {
      FailedStays(s[1..]);
    }
  }
}
