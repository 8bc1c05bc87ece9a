/** The file name under which a scraped page is saved (`get_safe_filename`,
    main.py:365-386): the page's host with dots turned into underscores, its
    path with separators turned into underscores, and a timestamp. The URL is
    given already split into its netloc and path (the parse itself is not part
    of this model), and the clock reading is a parameter. */
module Filenames {
  import opened Text

  // ---------------------------------------------------------------------
  // The timestamp: strftime("%Y%m%d_%H%M%S")
  // ---------------------------------------------------------------------

  /** A clock reading, with the ranges `datetime` guarantees. */
  datatype Stamp = Stamp(year: nat, month: nat, day: nat, hour: nat, minute: nat, second: nat)

  predicate ValidStamp(t: Stamp) {
    1 <= t.year <= 9999 && 1 <= t.month <= 12 && 1 <= t.day <= 31
    && t.hour < 24 && t.minute < 60 && t.second < 60
  }

  function Pow10(w: nat): (p: nat)
    ensures p >= 1
  {
    if w == 0 then 1 else 10 * Pow10(w - 1)
  }

  /** `n` in exactly `w` decimal digits, zero-padded on the left. */
  function Digits(n: nat, w: nat): (r: string)
    ensures |r| == w
    ensures forall i :: 0 <= i < |r| ==> IsDigit(r[i])
  {
    if w == 0 then [] else Digits(n / 10, w - 1) + [DigitChar(n % 10)]
  }

  /** Padded digits read back as the number, when it fits in the width. */
  lemma {:induction false} DigitsRoundTrip(n: nat, w: nat)
    requires n < Pow10(w)
    ensures ParseDigits(Digits(n, w)) == n
  {
    if w > 0 {
      var r := Digits(n, w);
      assert r[..|r| - 1] == Digits(n / 10, w - 1);
      DigitsRoundTrip(n / 10, w - 1);
    }
  }

  function FormatStamp(t: Stamp): (r: string)
    requires ValidStamp(t)
    ensures |r| == 15 && r[8] == '_'
  {
    Digits(t.year, 4) + Digits(t.month, 2) + Digits(t.day, 2) + "_"
      + Digits(t.hour, 2) + Digits(t.minute, 2) + Digits(t.second, 2)
  }

  /** The clock reading is recovered from its text: two different readings
      never give the same text. */
  lemma FormatStampInjective(t: Stamp, u: Stamp)
    requires ValidStamp(t) && ValidStamp(u)
    requires FormatStamp(t) == FormatStamp(u)
    ensures t == u
  {
    var r := FormatStamp(t);
    assert r[0..4] == Digits(t.year, 4) && r[0..4] == Digits(u.year, 4);
    assert r[4..6] == Digits(t.month, 2) && r[4..6] == Digits(u.month, 2);
    assert r[6..8] == Digits(t.day, 2) && r[6..8] == Digits(u.day, 2);
    assert r[9..11] == Digits(t.hour, 2) && r[9..11] == Digits(u.hour, 2);
    assert r[11..13] == Digits(t.minute, 2) && r[11..13] == Digits(u.minute, 2);
    assert r[13..15] == Digits(t.second, 2) && r[13..15] == Digits(u.second, 2);
    assert Pow10(2) == 100 && Pow10(4) == 10000;
    DigitsRoundTrip(t.year, 4);
    DigitsRoundTrip(u.year, 4);
    DigitsRoundTrip(t.month, 2);
    DigitsRoundTrip(u.month, 2);
    DigitsRoundTrip(t.day, 2);
    DigitsRoundTrip(u.day, 2);
    DigitsRoundTrip(t.hour, 2);
    DigitsRoundTrip(u.hour, 2);
    DigitsRoundTrip(t.minute, 2);
    DigitsRoundTrip(u.minute, 2);
    DigitsRoundTrip(t.second, 2);
    DigitsRoundTrip(u.second, 2);
  }

  // ---------------------------------------------------------------------
  // get_safe_filename (main.py:365-386)
  // ---------------------------------------------------------------------

  /** The host part: every `www.` deleted, then every dot an underscore. */
  function DomainPart(netloc: string): (r: string)
    ensures '.' !in r
  {
    ReplaceCharRemoves(Replace(netloc, "www.", ""), '.', "_");
    Replace(Replace(netloc, "www.", ""), ".", "_")
  }

  /** The path part: separators become underscores; an empty or root path is
      `home`, any other loses its leading underscores. */
  function PathPart(path: string): (r: string)
    ensures r == [] || r[0] != '_'
  {
    var p := Replace(Replace(path, "/", "_"), "\\", "_");
    if p == [] || p == "_" then "home" else LStrip(p, '_')
  }

  function SafeFilename(netloc: string, path: string, t: Stamp): (r: string)
    requires ValidStamp(t)
  {
    DomainPart(netloc) + "_" + PathPart(path) + "_" + FormatStamp(t)
  }

  /** Stripping never brings in a character. */
  lemma StripKeepsAbsence(s: string, c: char, d: char)
    requires d !in s
    ensures d !in LStrip(s, c)
  {
  }

  /** Both separators are gone from the path part, whatever the path holds. */
  lemma PathPartHasNoSeparator(path: string)
    ensures '/' !in PathPart(path) && '\\' !in PathPart(path)
  {
    var p1 := Replace(path, "/", "_");
    var p := Replace(p1, "\\", "_");
    assert '/' !in p1 by { ReplaceCharRemoves(path, '/', "_"); }
    assert '\\' !in p by { ReplaceCharRemoves(p1, '\\', "_"); }
    assert '/' !in p by {
      if '/' in p { ReplaceKeeps(p1, "\\", "_", '/'); }
    }
    if p != [] && p != "_" {
      StripKeepsAbsence(p, '_', '/');
      StripKeepsAbsence(p, '_', '\\');
    }
  }

  /** The name ends in an underscore and the timestamp, after the domain and
      path parts: a host without separators gives a name without them, so the
      file stays in the folder it is written to. */
  lemma SafeFilenameShape(netloc: string, path: string, t: Stamp)
    requires ValidStamp(t)
    ensures var r := SafeFilename(netloc, path, t);
      |r| >= 17 && r[|r| - 15..] == FormatStamp(t) && r[|r| - 16] == '_'
      && r[..|DomainPart(netloc)|] == DomainPart(netloc)
    ensures '/' !in netloc && '\\' !in netloc ==>
      '/' !in SafeFilename(netloc, path, t) && '\\' !in SafeFilename(netloc, path, t)
  {
    var d := DomainPart(netloc);
    PathPartHasNoSeparator(path);
    if '/' !in netloc && '\\' !in netloc {
      var w := Replace(netloc, "www.", "");
      if '/' in w { ReplaceKeeps(netloc, "www.", "", '/'); }
      if '\\' in w { ReplaceKeeps(netloc, "www.", "", '\\'); }
      if '/' in d { ReplaceKeeps(w, ".", "_", '/'); }
      if '\\' in d { ReplaceKeeps(w, ".", "_", '\\'); }
      var ts := FormatStamp(t);
      assert '/' !in ts && '\\' !in ts by {
        forall i | 0 <= i < 15 ensures ts[i] != '/' && ts[i] != '\\' {
          assert IsDigit(ts[i]) || ts[i] == '_';
        }
      }
    }
  }

  /** Saving the same page at two different moments gives two different
      names, the reason the timestamp is added. */
  lemma DistinctMomentsDistinctNames(netloc: string, path: string, t: Stamp, u: Stamp)
    requires ValidStamp(t) && ValidStamp(u) && t != u
    ensures SafeFilename(netloc, path, t) != SafeFilename(netloc, path, u)
  {
    if SafeFilename(netloc, path, t) == SafeFilename(netloc, path, u) {
      SafeFilenameShape(netloc, path, t);
      SafeFilenameShape(netloc, path, u);
      FormatStampInjective(t, u);
    }
  }

  /** The root page and a page without a path are both saved as `home`; a
      path of several slashes alone leaves the path part empty. */
  lemma HomePath()
    ensures PathPart("") == "home" && PathPart("/") == "home" && PathPart("\\") == "home"
    ensures PathPart("//") == ""
  {
    assert Replace("/", "/", "_") == "_";
    assert Replace("_", "\\", "_") == "_";
    assert Replace("\\", "/", "_") == "\\";
    assert Replace("\\", "\\", "_") == "_";
    assert Replace("//", "/", "_") == "__";
    assert Replace("__", "\\", "_") == "__";
  }
}
