/**
 * The spoken answer to a train query: each departure becomes a phrase ("in
 * 14 minutes", "at 9:47"), each direction a sentence about its first two
 * departures, and the answer is the eastbound sentence followed by the
 * westbound one.
 */
module Composer {
  import opened Wrappers
  import opened Text
  import opened Arrivals
  import opened Upstream

  /** The departure text is a countdown: its lower-case form contains "min". */
  predicate IsCountdown(d: Departure) {
    Contains(ToLower(d.departureText), "min")
  }

  /**
   * The phrase for one departure: a countdown becomes "in " and the text with
   * its first "min" spelled out as "minutes", anything else "at " and the
   * text, both lower-cased.
   */
  function Phrase(d: Departure): (p: string)
    ensures |p| >= 3
    ensures IsCountdown(d) <==> p[..3] == "in "
    ensures !IsCountdown(d) <==> p[..3] == "at "
  {
    var t := ToLower(d.departureText);
    if Contains(t, "min") then "in " + ReplaceFirst(t, "min", "minutes") else "at " + t
  }

  /** A countdown phrase is the text up to its first "min", "minutes", and the rest. */
  lemma CountdownPhrase(d: Departure, i: nat)
    requires OccursAt(ToLower(d.departureText), "min", i)
    requires forall j :: 0 <= j < i ==> !OccursAt(ToLower(d.departureText), "min", j)
    ensures IsCountdown(d)
    ensures Phrase(d) == "in " + ToLower(d.departureText)[..i] + "minutes" + ToLower(d.departureText)[i + 3..]
  {
    var t := ToLower(d.departureText);
    ContainsWitness(t, "min", i);
    ReplaceFirstSplit(t, "min", "minutes", i);
  }

  /** Every phrase is lower case, whatever the case of the departure text. */
  lemma PhraseIsLowerCase(d: Departure)
    ensures AllLower(Phrase(d))
  {
    var t := ToLower(d.departureText);
    var p := Phrase(d);
    var prefix := if IsCountdown(d) then "in " else "at ";
    var rest := if IsCountdown(d) then ReplaceFirst(t, "min", "minutes") else t;
    assert AllLower("minutes");
    ReplaceFirstKeepsLower(t, "min", "minutes");
    assert p == prefix + rest;
    forall k | 0 <= k < |p| ensures !IsUpper(p[k]) {
      if k >= 3 {
        assert p[k] == rest[k - 3];
      }
    }
  }

  /** Two departure texts that differ only in case give the same phrase. */
  lemma PhraseIgnoresCase(d: Departure, d': Departure)
    requires ToLower(d.departureText) == ToLower(d'.departureText)
    ensures Phrase(d) == Phrase(d')
  {
  }

  function Lead(dir: Direction): string {
    match dir
    case Eastbound => "The Next eastbound trains for the "
    case Westbound => "The Next westbound trains for the "
  }

  /** The opening of one direction's sentence, naming the station as the user said it. */
  function Header(dir: Direction, station: string): string {
    Lead(dir) + station + " Station is "
  }

  /**
   * How a direction's sentence ends: ". ", except that a westbound sentence
   * whose second departure is a clock time ends with a bare ".".
   */
  function Ending(dir: Direction, second: Departure): string {
    if dir == Westbound && !IsCountdown(second) then "." else ". "
  }

  /** One direction's sentence about its next two departures. */
  function Sentence(dir: Direction, station: string, first: Departure, second: Departure): string {
    Header(dir, station) + Phrase(first) + " and " + Phrase(second) + Ending(dir, second)
  }

  /**
   * The spoken answer: the eastbound sentence followed by the westbound one,
   * or None when a direction has fewer than two departures (reading the
   * missing one throws).
   */
  function Speech(station: string, east: seq<Departure>, west: seq<Departure>): (r: Option<string>)
    ensures r.Some? <==> |east| >= 2 && |west| >= 2
  {
    if |east| < 2 || |west| < 2 then None
    else Some(Sentence(Eastbound, station, east[0], east[1])
              + Sentence(Westbound, station, west[0], west[1]))
  }

  /**
   * Composing the two messages step by step, as `getNextTrains` does,
   * yields the spoken answer `Speech` describes.
   */
  method ComposeMessages(station: string, east: seq<Departure>, west: seq<Departure>)
    returns (speechOutput: Option<string>)
    ensures speechOutput == Speech(station, east, west)
  {
    if |east| < 1 {
      return None;
    }
    var eastboundMessage := "The Next eastbound trains for the " + station + " Station is ";
    ghost var before := eastboundMessage;
    var text := ToLower(east[0].departureText);
    if Contains(text, "min") {
      eastboundMessage := eastboundMessage + "in " + ReplaceFirst(text, "min", "minutes") + " ";
      Assoc(before, "in ", ReplaceFirst(text, "min", "minutes"));
    } else {
      eastboundMessage := eastboundMessage + "at " + text + " ";
      Assoc(before, "at ", text);
    }
    ghost var first := before + Phrase(east[0]);
    assert eastboundMessage == first + " ";
    eastboundMessage := eastboundMessage + "and ";
    Assoc(first, " ", "and ");
    assert " " + "and " == " and ";
    if |east| < 2 {
      return None;
    }
    before := eastboundMessage;
    text := ToLower(east[1].departureText);
    if Contains(text, "min") {
      eastboundMessage := eastboundMessage + "in " + ReplaceFirst(text, "min", "minutes") + ". ";
      Assoc(before, "in ", ReplaceFirst(text, "min", "minutes"));
    } else {
      eastboundMessage := eastboundMessage + "at " + text + ". ";
      Assoc(before, "at ", text);
    }
    assert eastboundMessage == before + Phrase(east[1]) + Ending(Eastbound, east[1]);
    assert before == first + " and ";
    assert eastboundMessage == Sentence(Eastbound, station, east[0], east[1]);

    if |west| < 1 {
      return None;
    }
    var westboundMessage := "The Next westbound trains for the " + station + " Station is ";
    before := westboundMessage;
    text := ToLower(west[0].departureText);
    if Contains(text, "min") {
      westboundMessage := westboundMessage + "in " + ReplaceFirst(text, "min", "minutes") + " ";
      Assoc(before, "in ", ReplaceFirst(text, "min", "minutes"));
    } else {
      westboundMessage := westboundMessage + "at " + text + " ";
      Assoc(before, "at ", text);
    }
    first := before + Phrase(west[0]);
    assert westboundMessage == first + " ";
    westboundMessage := westboundMessage + "and ";
    Assoc(first, " ", "and ");
    assert " " + "and " == " and ";
    if |west| < 2 {
      return None;
    }
    before := westboundMessage;
    text := ToLower(west[1].departureText);
    if Contains(text, "min") {
      westboundMessage := westboundMessage + "in " + ReplaceFirst(text, "min", "minutes") + ". ";
      Assoc(before, "in ", ReplaceFirst(text, "min", "minutes"));
    } else {
      westboundMessage := westboundMessage + "at " + text + ".";
      Assoc(before, "at ", text);
    }
    assert westboundMessage == before + Phrase(west[1]) + Ending(Westbound, west[1]);
    assert before == first + " and ";
    assert westboundMessage == Sentence(Westbound, station, west[0], west[1]);

    speechOutput := Some(eastboundMessage + westboundMessage);
  }

  /**
   * The usual countdown, a count without an "m" followed by " Min" in any
   * case, is spoken as "in " the count " minutes".
   */
  lemma MinutesPhrase(d: Departure, count: string)
    requires ToLower(d.departureText) == count + " min"
    requires forall k :: 0 <= k < |count| ==> count[k] != 'm'
    ensures IsCountdown(d)
    ensures Phrase(d) == "in " + count + " minutes"
  {
    MinutesReplaced(count);
    Assoc("in ", count, " minutes");
  }

  /** A countdown of `n` minutes, as the service writes it, is spoken as "in `n` minutes". */
  lemma MinutesFromNow(n: nat)
    ensures IsCountdown(Departure(Decimal(n) + " Min"))
    ensures Phrase(Departure(Decimal(n) + " Min")) == "in " + Decimal(n) + " minutes"
  {
    var c := Decimal(n);
    assert AllLower(c) by {
      forall k | 0 <= k < |c| ensures !IsUpper(c[k]) {
        assert IsDigit(c[k]);
      }
    }
    ToLowerAppend(c, " Min");
    ToLowerOfLower(c);
    ToLowerPointwise(" Min", " min");
    forall k | 0 <= k < |c| ensures c[k] != 'm' {
      assert IsDigit(c[k]);
    }
    MinutesPhrase(Departure(c + " Min"), c);
  }

  /** A departure `n` minutes from now, as the service writes it. */
  function MinutesAway(n: nat): Departure {
    Departure(Decimal(n) + " Min")
  }

  /** `x` followed by the three parts of a phrase is `x` followed by the phrase. */
  lemma AppendPhrase(x: string, lead: string, middle: string, tail: string)
    ensures x + (lead + middle + tail) == x + lead + middle + tail
  {
    Assoc(x, lead + middle, tail);
    Assoc(x, lead, middle);
  }

  /** The sentence about two countdown departures, spelled out. */
  lemma CountdownSentence(dir: Direction, station: string, a: nat, b: nat)
    ensures Sentence(dir, station, MinutesAway(a), MinutesAway(b))
      == Header(dir, station) + "in " + Decimal(a) + " minutes" + " and " + "in " + Decimal(b) + " minutes" + ". "
  {
    MinutesFromNow(a);
    MinutesFromNow(b);
    var h := Header(dir, station);
    AppendPhrase(h, "in ", Decimal(a), " minutes");
    AppendPhrase(h + "in " + Decimal(a) + " minutes" + " and ", "in ", Decimal(b), " minutes");
  }

  /**
   * Two countdown departures each way give the eastbound and then the
   * westbound sentence, and the answer ends with ". ".
   */
  lemma CountdownSpeech(station: string, e1: nat, e2: nat, w1: nat, w2: nat)
    ensures Speech(station, [MinutesAway(e1), MinutesAway(e2)], [MinutesAway(w1), MinutesAway(w2)])
      == Some(Header(Eastbound, station) + "in " + Decimal(e1) + " minutes" + " and " + "in " + Decimal(e2) + " minutes" + ". "
              + (Header(Westbound, station) + "in " + Decimal(w1) + " minutes" + " and " + "in " + Decimal(w2) + " minutes" + ". "))
  {
    CountdownSentence(Eastbound, station, e1, e2);
    CountdownSentence(Westbound, station, w1, w2);
  }

  /** "14 Min" is spoken as "in 14 minutes". */
  lemma CountdownExample()
    ensures Phrase(Departure("14 Min")) == "in 14 minutes"
  {
    ToLowerPointwise("14 Min", "14 min");
    assert "14" + " min" == "14 min";
    assert "in " + "14" + " minutes" == "in 14 minutes";
    MinutesPhrase(Departure("14 Min"), "14");
  }

  /** "9:47" is spoken as "at 9:47". */
  lemma ClockExample()
    ensures Phrase(Departure("9:47")) == "at 9:47"
  {
    ToLowerPointwise("9:47", "9:47");
  }

  /** Only the first two departures of each direction are spoken about. */
  lemma SpeechReadsTwo(station: string, east: seq<Departure>, west: seq<Departure>)
    requires |east| >= 2 && |west| >= 2
    ensures Speech(station, east, west) == Speech(station, east[..2], west[..2])
  {
  }

  /**
   * The answer opens with the eastbound header; it ends with ". " when the
   * second westbound departure is a countdown and with a bare "." otherwise.
   */
  lemma SpeechShape(station: string, east: seq<Departure>, west: seq<Departure>)
    requires |east| >= 2 && |west| >= 2
    ensures var s := Speech(station, east, west).value;
      && |s| > |Header(Eastbound, station)|
      && s[..|Header(Eastbound, station)|] == Header(Eastbound, station)
      && (IsCountdown(west[1]) ==> s[|s| - 2..] == ". ")
      && (!IsCountdown(west[1]) ==> s[|s| - 1] == '.')
  {
    var h := Header(Eastbound, station);
    var p0, p1 := Phrase(east[0]), Phrase(east[1]);
    var e := Sentence(Eastbound, station, east[0], east[1]);
    var w := Sentence(Westbound, station, west[0], west[1]);
    var ending := Ending(Westbound, west[1]);
    assert Speech(station, east, west).value == e + w;
    PrefixExtends(h, h, p0);
    PrefixExtends(h, h + p0, " and ");
    PrefixExtends(h, h + p0 + " and ", p1);
    PrefixExtends(h, h + p0 + " and " + p1, Ending(Eastbound, east[1]));
    PrefixExtends(h, e, w);
    SuffixExtends(ending, Header(Westbound, station) + Phrase(west[0]) + " and " + Phrase(west[1]), ending);
    SuffixExtends(ending, e, w);
  }
}
