/**
 * `optstore::util::day_to_path`. A path is the list of its components and `Path::join`
 * appends one component.
 */
module StoreUtil {
  import opened Text

  type Path = seq<string>

  const OPT_EXTENSION: string := ".opt"

  predicate HasOptExtension(name: string) {
    |name| >= |OPT_EXTENSION| && name[|name| - |OPT_EXTENSION|..] == OPT_EXTENSION
  }

  /**
   * `day_to_path(base, day)`: a day written "Y-M-D" (exactly three '-'-separated parts)
   * becomes `base/Y/M/D.opt`; any other string becomes `base/{day}.opt`. Joining the
   * three new components with '-' gives the day back, followed by the extension.
   */
  function DayToPath(base: Path, day: string): (p: Path)
    ensures |p| == |base| + (if Count(day, '-') == 2 then 3 else 1)
    ensures p[..|base|] == base
    ensures HasOptExtension(p[|p| - 1])
    ensures Count(day, '-') == 2 ==> Join(p[|base|..], '-') == day + OPT_EXTENSION
    ensures Count(day, '-') == 2 ==> forall i :: |base| <= i < |p| - 1 ==> '-' !in p[i]
    ensures Count(day, '-') != 2 ==> p[|base|] == day + OPT_EXTENSION
  {
    var parts := SplitOn(day, '-');
    SplitCount(day, '-');
    if |parts| == 3 then
      SplitPiecesHaveNoSeparator(day, '-');
      JoinSplit(day, '-');
      var p := base + [parts[0], parts[1], parts[2] + OPT_EXTENSION];
      assert p[|base|..] == [parts[0], parts[1], parts[2] + OPT_EXTENSION];
      JoinThree(parts[0], parts[1], parts[2]);
      JoinThree(parts[0], parts[1], parts[2] + OPT_EXTENSION);
      assert parts == [parts[0], parts[1], parts[2]];
      p
    else
      base + [day + OPT_EXTENSION]
  }

  lemma JoinThree(a: string, b: string, c: string)
    ensures Join([a, b, c], '-') == a + "-" + b + "-" + c
  {
    var parts := [a, b, c];
    assert Join(parts[2..], '-') == c;
    assert parts[1..][1..] == parts[2..];
  }

  /** A day assembled from three '-'-free parts is split back into exactly those parts. */
  lemma DayToPathOfParts(base: Path, year: string, month: string, day: string)
    requires '-' !in year && '-' !in month && '-' !in day
    ensures DayToPath(base, year + "-" + month + "-" + day) == base + [year, month, day + OPT_EXTENSION]
  {
    JoinThree(year, month, day);
    SplitJoin([year, month, day], '-');
  }

  /** A day without any '-' is kept whole as the file name. */
  lemma DayToPathOfPlainName(base: Path, day: string)
    requires '-' !in day
    ensures DayToPath(base, day) == base + [day + OPT_EXTENSION]
  {
    SplitNoSeparator(day, '-');
  }
}
