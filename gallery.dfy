// The wording of the campaign templates, kept apart from the screen so
// that facts about the literals are proved in a small context.

module Gallery {
  // The wording of each default message, split at its placeholders. The
  // leading and trailing characters are the file's emoji as its text holds
  // them (UTF-8 bytes read back as Windows-1252), kept code point for code
  // point.
  const DewormingOpening := "\U{F0}\U{178}\U{BE} Hi "
  const DewormingMiddle := "! It's time for "
  const DewormingClosing: string := DewormingClosing0 + DewormingClosing1 + DewormingClosing2
                                    + DewormingClosing3 + DewormingClosing4 + DewormingClosing5
  const DewormingClosing0 := "'s deworming treatment. "
  const DewormingClosing1 := "Regular deworming protects "
  const DewormingClosing2 := "your pet from internal "
  const DewormingClosing3 := "parasites and keeps them "
  const DewormingClosing4 := "healthy. Book your appointment "
  const DewormingClosing5 := "today! \U{F0}\U{178}\U{2019}\U{161}"
  const WellnessOpening := "\U{F0}\U{178}\U{2019} Hello "
  const WellnessMiddle := "! "
  const WellnessClosing: string := WellnessClosing0 + WellnessClosing1 + WellnessClosing2
                                   + WellnessClosing3 + WellnessClosing4
  const WellnessClosing0 := " is due for their annual "
  const WellnessClosing1 := "wellness check-up. Regular "
  const WellnessClosing2 := "exams help detect health "
  const WellnessClosing3 := "issues early. Schedule "
  const WellnessClosing4 := "their visit today! \U{F0}\U{178}\U{A5}"
  const RabiesOpening := "\U{F0}\U{178}\U{203A}\U{A1}\U{EF}\U{B8} Important! "
  const RabiesClosing: string := RabiesClosing0 + RabiesClosing1 + RabiesClosing2
                                 + RabiesClosing3 + RabiesClosing4 + RabiesClosing5
  const RabiesClosing0 := "'s rabies vaccination "
  const RabiesClosing1 := "is due. Rabies vaccination "
  const RabiesClosing2 := "is required by law and "
  const RabiesClosing3 := "protects both your pet "
  const RabiesClosing4 := "and family. Book now at "
  const RabiesClosing5 := "Kizuna Vet! \U{F0}\U{178}\U{2019}\U{2030}"
  const DhlppOpening := "\U{F0}\U{178}\U{2019}\U{2122} Hi "
  const DhlppMiddle := "! "
  const DhlppClosing: string := DhlppClosing0 + DhlppClosing1 + DhlppClosing2
                                + DhlppClosing3 + DhlppClosing4 + DhlppClosing5
  const DhlppClosing0 := " is due for their DHLPP "
  const DhlppClosing1 := "vaccine (Distemper, Hepatitis, "
  const DhlppClosing2 := "Leptospirosis, Parvo & "
  const DhlppClosing3 := "Parainfluenza). This essential "
  const DhlppClosing4 := "vaccine keeps dogs protected. "
  const DhlppClosing5 := "Schedule today! \U{F0}\U{178}\U{2022}"
  const FelineOpening := "\U{F0}\U{178}\U{B1} Hello "
  const FelineMiddle := "! "
  const FelineClosing: string := FelineClosing0 + FelineClosing1 + FelineClosing2
                                 + FelineClosing3 + FelineClosing4 + FelineClosing5
  const FelineClosing0 := " is due for their feline "
  const FelineClosing1 := "vaccination (FVRCP/FeLV). "
  const FelineClosing2 := "Keep your kitty protected "
  const FelineClosing3 := "from common diseases. "
  const FelineClosing4 := "Book their appointment! "
  const FelineClosing5 := "\U{F0}\U{178}\U{2019}\U{153}"
  const NewMonthOpening := "\U{F0}\U{178}\U{17D}\U{2030} Happy New Month, "
  const NewMonthMiddle := "! Wishing you and "
  const NewMonthClosing: string := NewMonthClosing0 + NewMonthClosing1 + NewMonthClosing2
                                   + NewMonthClosing3 + NewMonthClosing4
  const NewMonthClosing0 := " a wonderful month ahead "
  const NewMonthClosing1 := "filled with health and "
  const NewMonthClosing2 := "happiness! From all of "
  const NewMonthClosing3 := "us at Kizuna Vet Center "
  const NewMonthClosing4 := "\U{F0}\U{178}\U{BE}\U{F0}\U{178}\U{2019}\U{161}"
  // No piece of the wording holds a brace, so only the placeholders do.
  // Each closing is proved brace-free from its pieces, one lemma per
  // literal: every lemma then puts a single literal in front of the
  // solver. Folding a template's pieces into one lemma puts them all in
  // one proof obligation, and that costs more than the resource limit
  // allows for most of the templates.
  lemma ShortPiecesBraceFree()
    ensures '{' !in DewormingOpening
    ensures '{' !in WellnessOpening
    ensures '{' !in RabiesOpening
    ensures '{' !in DhlppOpening
    ensures '{' !in FelineOpening
    ensures '{' !in NewMonthOpening
    ensures '{' !in DewormingMiddle
    ensures '{' !in WellnessMiddle
    ensures '{' !in DhlppMiddle
    ensures '{' !in FelineMiddle
    ensures '{' !in NewMonthMiddle
  {
  }

  lemma DewormingClosingBraceFree()
    ensures '{' !in DewormingClosing
  {
    DewormingClosing0BraceFree(); DewormingClosing1BraceFree(); DewormingClosing2BraceFree(); DewormingClosing3BraceFree(); DewormingClosing4BraceFree(); DewormingClosing5BraceFree();
  }

  lemma DewormingClosing0BraceFree()
    ensures '{' !in DewormingClosing0
  {
  }

  lemma DewormingClosing1BraceFree()
    ensures '{' !in DewormingClosing1
  {
  }

  lemma DewormingClosing2BraceFree()
    ensures '{' !in DewormingClosing2
  {
  }

  lemma DewormingClosing3BraceFree()
    ensures '{' !in DewormingClosing3
  {
  }

  lemma DewormingClosing4BraceFree()
    ensures '{' !in DewormingClosing4
  {
  }

  lemma DewormingClosing5BraceFree()
    ensures '{' !in DewormingClosing5
  {
  }

  lemma WellnessClosingBraceFree()
    ensures '{' !in WellnessClosing
  {
    WellnessClosing0BraceFree(); WellnessClosing1BraceFree(); WellnessClosing2BraceFree(); WellnessClosing3BraceFree(); WellnessClosing4BraceFree();
  }

  lemma WellnessClosing0BraceFree()
    ensures '{' !in WellnessClosing0
  {
  }

  lemma WellnessClosing1BraceFree()
    ensures '{' !in WellnessClosing1
  {
  }

  lemma WellnessClosing2BraceFree()
    ensures '{' !in WellnessClosing2
  {
  }

  lemma WellnessClosing3BraceFree()
    ensures '{' !in WellnessClosing3
  {
  }

  lemma WellnessClosing4BraceFree()
    ensures '{' !in WellnessClosing4
  {
  }

  lemma RabiesClosingBraceFree()
    ensures '{' !in RabiesClosing
  {
    RabiesClosing0BraceFree(); RabiesClosing1BraceFree(); RabiesClosing2BraceFree(); RabiesClosing3BraceFree(); RabiesClosing4BraceFree(); RabiesClosing5BraceFree();
  }

  lemma RabiesClosing0BraceFree()
    ensures '{' !in RabiesClosing0
  {
  }

  lemma RabiesClosing1BraceFree()
    ensures '{' !in RabiesClosing1
  {
  }

  lemma RabiesClosing2BraceFree()
    ensures '{' !in RabiesClosing2
  {
  }

  lemma RabiesClosing3BraceFree()
    ensures '{' !in RabiesClosing3
  {
  }

  lemma RabiesClosing4BraceFree()
    ensures '{' !in RabiesClosing4
  {
  }

  lemma RabiesClosing5BraceFree()
    ensures '{' !in RabiesClosing5
  {
  }

  lemma DhlppClosingBraceFree()
    ensures '{' !in DhlppClosing
  {
    DhlppClosing0BraceFree(); DhlppClosing1BraceFree(); DhlppClosing2BraceFree(); DhlppClosing3BraceFree(); DhlppClosing4BraceFree(); DhlppClosing5BraceFree();
  }

  lemma DhlppClosing0BraceFree()
    ensures '{' !in DhlppClosing0
  {
  }

  lemma DhlppClosing1BraceFree()
    ensures '{' !in DhlppClosing1
  {
  }

  lemma DhlppClosing2BraceFree()
    ensures '{' !in DhlppClosing2
  {
  }

  lemma DhlppClosing3BraceFree()
    ensures '{' !in DhlppClosing3
  {
  }

  lemma DhlppClosing4BraceFree()
    ensures '{' !in DhlppClosing4
  {
  }

  lemma DhlppClosing5BraceFree()
    ensures '{' !in DhlppClosing5
  {
  }

  lemma FelineClosingBraceFree()
    ensures '{' !in FelineClosing
  {
    FelineClosing0BraceFree(); FelineClosing1BraceFree(); FelineClosing2BraceFree(); FelineClosing3BraceFree(); FelineClosing4BraceFree(); FelineClosing5BraceFree();
  }

  lemma FelineClosing0BraceFree()
    ensures '{' !in FelineClosing0
  {
  }

  lemma FelineClosing1BraceFree()
    ensures '{' !in FelineClosing1
  {
  }

  lemma FelineClosing2BraceFree()
    ensures '{' !in FelineClosing2
  {
  }

  lemma FelineClosing3BraceFree()
    ensures '{' !in FelineClosing3
  {
  }

  lemma FelineClosing4BraceFree()
    ensures '{' !in FelineClosing4
  {
  }

  lemma FelineClosing5BraceFree()
    ensures '{' !in FelineClosing5
  {
  }

  lemma NewMonthClosingBraceFree()
    ensures '{' !in NewMonthClosing
  {
    NewMonthClosing0BraceFree(); NewMonthClosing1BraceFree(); NewMonthClosing2BraceFree(); NewMonthClosing3BraceFree(); NewMonthClosing4BraceFree();
  }

  lemma NewMonthClosing0BraceFree()
    ensures '{' !in NewMonthClosing0
  {
  }

  lemma NewMonthClosing1BraceFree()
    ensures '{' !in NewMonthClosing1
  {
  }

  lemma NewMonthClosing2BraceFree()
    ensures '{' !in NewMonthClosing2
  {
  }

  lemma NewMonthClosing3BraceFree()
    ensures '{' !in NewMonthClosing3
  {
  }

  lemma NewMonthClosing4BraceFree()
    ensures '{' !in NewMonthClosing4
  {
  }
}
