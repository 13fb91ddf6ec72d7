/** The preamble and the closing lines of a `DumpDatabase` output file.
    Both are `text/template` templates whose only actions are field
    substitutions, so executing them is literal substitution: a string
    field is written as it is, the `int` thread count in decimal. The raw
    string literals are split here into their lines (a Go raw string drops
    carriage returns, so the lines are separated by '\n' alone). */
module Template {
  import opened Text

  /** The values the templates substitute. */
  datatype DumpInfo = DumpInfo(
    dumpVersion: string,
    serverVersion: string,
    completeTime: string,
    threadsNumber: int)

  /** Session settings written after the version block, in this order,
      whatever the run; the text ends with the header's final newline. */
  const SessionDirectives: string :=
    "SET statement_timeout = 0;\n" +
    "SET lock_timeout = 0;\n" +
    "SET idle_in_transaction_session_timeout = 0;\n" +
    "SET client_encoding = 'UTF8';\n" +
    "SET standard_conforming_strings = on;\n" +
    "SELECT pg_catalog.set_config('search_path', '', false);\n" +
    "SET check_function_bodies = false;\n" +
    "SET xmloption = content;\n" +
    "SET client_min_messages = warning;\n" +
    "SET row_security = off;\n" +
    "\n" +
    "SET default_tablespace = '';\n" +
    "\n" +
    "SET default_table_access_method = heap;\n"

  /** The first seven lines of the header: tool version, server version,
      thread count, and the blank line before the directives. */
  function VersionBlock(info: DumpInfo): seq<string>
  {
    [ "-- Go PostgreSQL Dump v" + info.dumpVersion,
      "--",
      "-- Server version:",
      "--\t " + info.serverVersion,
      "-- Threads Used:",
      "--   " + Decimal(info.threadsNumber),
      "" ]
  }

  /** `writeHeader`: the header template executed on `info`. */
  function WriteHeader(info: DumpInfo): string
  {
    Join(VersionBlock(info), "\n") + "\n" + SessionDirectives
  }

  /** `writeFooter`: the footer template executed on `info`; it ends
      without a newline. */
  function WriteFooter(info: DumpInfo): string
  {
    "--" + "\n" + CompletedLine(info.completeTime) + "\n" + "--"
  }

  /** The footer's middle line. */
  function CompletedLine(completeTime: string): string
  {
    "-- Dump completed on " + completeTime
  }

  /** The header opens with the tool-version line, whatever the values. */
  lemma {:induction false} HeaderStartsWithToolVersion(info: DumpInfo)
    ensures var first := "-- Go PostgreSQL Dump v" + info.dumpVersion + "\n";
      |WriteHeader(info)| > |first| && WriteHeader(info)[..|first|] == first
  {
    var lines := VersionBlock(info);
    assert Join(lines, "\n") == lines[0] + "\n" + Join(lines[1..], "\n");
  }

  /** Every header ends with the same directive block, whatever values were
      substituted before it. */
  lemma {:induction false} HeaderEndsWithDirectives(a: DumpInfo, b: DumpInfo)
    ensures var ha, hb, n := WriteHeader(a), WriteHeader(b), |SessionDirectives|;
      |ha| >= n && |hb| >= n && ha[|ha| - n..] == hb[|hb| - n..] == SessionDirectives
  {
  }

  /** The completion time never reaches the header. */
  lemma {:induction false} HeaderIgnoresCompleteTime(info: DumpInfo, t: string)
    ensures WriteHeader(info.(completeTime := t)) == WriteHeader(info)
  {
  }

  /** The footer depends on the completion time and on nothing else. */
  lemma {:induction false} FooterDependsOnlyOnCompleteTime(a: DumpInfo, b: DumpInfo)
    ensures WriteFooter(a) == WriteFooter(b) <==> a.completeTime == b.completeTime
  {
    var prefix := "--\n-- Dump completed on ";
    if WriteFooter(a) == WriteFooter(b) {
      assert a.completeTime == WriteFooter(a)[|prefix|..|WriteFooter(a)| - 3];
      assert b.completeTime == WriteFooter(b)[|prefix|..|WriteFooter(b)| - 3];
    }
  }

  lemma {:induction false} VersionBlockIsSingleLines(info: DumpInfo)
    requires '\n' !in info.dumpVersion && '\n' !in info.serverVersion
    ensures forall k :: 0 <= k < |VersionBlock(info)| ==> '\n' !in VersionBlock(info)[k]
  {
    var vb := VersionBlock(info);
    assert '\n' !in vb[0] && '\n' !in vb[1] && '\n' !in vb[2] && '\n' !in vb[3];
    assert '\n' !in vb[4] && '\n' !in vb[5] && '\n' !in vb[6];
  }

  /** Read back line by line, the header's first seven lines are the
      version block, as long as the two version strings are single lines. */
  lemma {:induction false} HeaderLinesReadBack(info: DumpInfo)
    requires '\n' !in info.dumpVersion && '\n' !in info.serverVersion
    ensures var ls := Lines(WriteHeader(info));
      |ls| > 7 && ls[..7] == VersionBlock(info)
  {
    var vb := VersionBlock(info);
    VersionBlockIsSingleLines(info);
    SplitJoinPrefix(vb, '\n', SessionDirectives);
    assert WriteHeader(info) == Join(vb, ['\n']) + ['\n'] + SessionDirectives;
  }

  /** So the header gives back the tool version on line 1, the server
      version on line 4 and the thread count, in decimal, on line 6. */
  lemma {:induction false} HeaderFieldsReadBack(info: DumpInfo)
    requires '\n' !in info.dumpVersion && '\n' !in info.serverVersion
    ensures var ls := Lines(WriteHeader(info));
      && |ls| > 7 && ls[..7] == VersionBlock(info)
      && ls[0][|"-- Go PostgreSQL Dump v"|..] == info.dumpVersion
      && ls[3][|"--\t "|..] == info.serverVersion
      && var n := ls[5][|"--   "|..];
         ((|n| > 0 && n[0] == '-' && AllDigits(n[1..])) || AllDigits(n))
         && ParseDecimal(n) == info.threadsNumber
  {
    HeaderLinesReadBack(info);
    DecimalRoundTrip(info.threadsNumber);
  }

  /** The footer is three lines: a comment marker, the completion line,
      and a closing marker that has no newline after it. */
  lemma {:induction false} FooterReadBack(info: DumpInfo)
    requires '\n' !in info.completeTime
    ensures Lines(WriteFooter(info)) == ["--", "-- Dump completed on " + info.completeTime, "--"]
  {
    var mid := CompletedLine(info.completeTime);
    assert '\n' !in mid;
    ThreeLines("--", mid, "--");
  }

  /** Three single lines joined by newlines read back as those lines. */
  lemma {:induction false} ThreeLines(a: string, b: string, c: string)
    requires '\n' !in a && '\n' !in b && '\n' !in c
    ensures Lines(a + "\n" + b + "\n" + c) == [a, b, c]
  {
    var ls := [a, b, c];
    assert Join(ls[2..], "\n") == c;
    assert Join(ls[1..], "\n") == b + "\n" + c;
    assert Join(ls, "\n") == a + "\n" + b + "\n" + c;
    SplitJoin(ls, '\n');
  }
}
