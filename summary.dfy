/** `displaySummary` of common.js: the summary lines of a menu command split
    into a toast of the successes and an alert of the errors. */
module Summary {
  import opened Js

  /** The tag that marks a summary line as an error. */
  const ErrorTag: string := "[ERROR]"

  /** `String.fromCharCode(13)` */
  const Br: string := "\r"

  /** The text the alert ends with. */
  const Footer: string := "Plugin and documentation:" + Br + "https://github.com/josephxbrick/tidyupdocument" + Br

  /** A line is an error when it contains the tag anywhere. */
  predicate IsError(val: string)
  {
    IndexOf(val, ErrorTag) >= 0
  }

  /** What `displaySummary` shows: the toast of `doc.showMessage` and the
      text of the `'Update error'` alert, each only when there is one. */
  datatype Shown = Shown(toast: Option<string>, alert: Option<string>)

  /** `errorMessage` after the loop: each error line, its first tag
      removed, followed by two carriage returns. */
  function ErrorMessage(summary: seq<string>): string
  {
    if summary == [] then ""
    else
      var val := summary[|summary| - 1];
      ErrorMessage(summary[..|summary| - 1]) + (if IsError(val) then RemoveFirst(val, ErrorTag) + Br + Br else "")
  }

  /** `successMessage` after the loop: each other line followed by `", "`. */
  function SuccessMessage(summary: seq<string>): string
  {
    if summary == [] then ""
    else
      var val := summary[|summary| - 1];
      SuccessMessage(summary[..|summary| - 1]) + (if IsError(val) then "" else val + ", ")
  }

  /** Specification of `displaySummary(doc, summary)`: the toast drops the
      last separator; the alert gets the footer. */
  function SummarySpec(summary: seq<string>): Shown
  {
    var success := SuccessMessage(summary);
    var error := ErrorMessage(summary);
    Shown(if success != "" then Some(Substr(success, 0, |success| - 2)) else None,
          if error != "" then Some(error + Footer) else None)
  }

  /** `displaySummary(doc, summary)`: the two messages it builds. */
  method DisplaySummary(summary: seq<string>) returns (shown: Shown)
    ensures shown == SummarySpec(summary)
  {
    var errorMessage, successMessage := CollectMessages(summary);
    var toast: Option<string> := None;
    if successMessage != "" {
      successMessage := Substr(successMessage, 0, |successMessage| - 2);
      toast := Some(successMessage);
    }
    var alert: Option<string> := None;
    if errorMessage != "" {
      errorMessage := errorMessage + Footer;
      alert := Some(errorMessage);
    }
    shown := Shown(toast, alert);
  }

  /** One more line extends the messages by its own part. */
  lemma MessagesStep(summary: seq<string>, i: nat)
    requires i < |summary|
    ensures var val := summary[i];
      && ErrorMessage(summary[..i + 1]) == ErrorMessage(summary[..i]) + (if IsError(val) then RemoveFirst(val, ErrorTag) + Br + Br else "")
      && SuccessMessage(summary[..i + 1]) == SuccessMessage(summary[..i]) + (if IsError(val) then "" else val + ", ")
  {
    assert summary[..i + 1][..i] == summary[..i];
  }

  /** The loop of `displaySummary` over the summary lines. */
  method CollectMessages(summary: seq<string>) returns (errorMessage: string, successMessage: string)
    ensures errorMessage == ErrorMessage(summary)
    ensures successMessage == SuccessMessage(summary)
  {
    errorMessage := "";
    successMessage := "";
    var i := 0;
    while i < |summary|
      invariant 0 <= i <= |summary|
      invariant errorMessage == ErrorMessage(summary[..i])
      invariant successMessage == SuccessMessage(summary[..i])
    {
      MessagesStep(summary, i);
      var val := summary[i];
      if IndexOf(val, ErrorTag) >= 0 {
        val := RemoveFirst(val, ErrorTag);
        errorMessage := errorMessage + (val + Br + Br);
      } else {
        successMessage := successMessage + (val + ", ");
      }
      i := i + 1;
    }
    assert summary[..i] == summary;
  }

  // ---------------------------------------------------------------------
  // the same messages, defined independently

  /** The error lines, in order. */
  function Errors(summary: seq<string>): (r: seq<string>)
    ensures |r| <= |summary|
  {
    if summary == [] then []
    else (if IsError(summary[0]) then [summary[0]] else []) + Errors(summary[1..])
  }

  /** The other lines, in order. */
  function Successes(summary: seq<string>): (r: seq<string>)
    ensures |r| <= |summary|
  {
    if summary == [] then []
    else (if IsError(summary[0]) then [] else [summary[0]]) + Successes(summary[1..])
  }

  /** The lines joined by `", "`. */
  function Join(xs: seq<string>): string
  {
    if xs == [] then ""
    else if |xs| == 1 then xs[0]
    else xs[0] + ", " + Join(xs[1..])
  }

  /** The error lines without their first tag, each followed by two carriage returns. */
  function ErrorLines(xs: seq<string>): string
  {
    if xs == [] then "" else RemoveFirst(xs[0], ErrorTag) + Br + Br + ErrorLines(xs[1..])
  }

  /** The error lines of two runs of lines are those of each, in order. */
  lemma {:induction false} ErrorsAppend(a: seq<string>, b: seq<string>)
    ensures Errors(a + b) == Errors(a) + Errors(b)
  {
    if a != [] {
      assert (a + b)[1..] == a[1..] + b;
      ErrorsAppend(a[1..], b);
    } else {
      assert a + b == b;
    }
  }

  /** The other lines of two runs of lines are those of each, in order. */
  lemma {:induction false} SuccessesAppend(a: seq<string>, b: seq<string>)
    ensures Successes(a + b) == Successes(a) + Successes(b)
  {
    if a != [] {
      assert (a + b)[1..] == a[1..] + b;
      SuccessesAppend(a[1..], b);
    } else {
      assert a + b == b;
    }
  }

  /** Splitting off the last line of a summary splits off the last error line. */
  lemma ErrorsOfLast(summary: seq<string>)
    requires summary != []
    ensures var front, val := summary[..|summary| - 1], summary[|summary| - 1];
      Errors(summary) == Errors(front) + (if IsError(val) then [val] else [])
  {
    var front, val := summary[..|summary| - 1], summary[|summary| - 1];
    assert summary == front + [val];
    ErrorsAppend(front, [val]);
    assert [val][1..] == [];
  }

  /** Splitting off the last line of a summary splits off the last other line. */
  lemma SuccessesOfLast(summary: seq<string>)
    requires summary != []
    ensures var front, val := summary[..|summary| - 1], summary[|summary| - 1];
      Successes(summary) == Successes(front) + (if IsError(val) then [] else [val])
  {
    var front, val := summary[..|summary| - 1], summary[|summary| - 1];
    assert summary == front + [val];
    SuccessesAppend(front, [val]);
    assert [val][1..] == [];
  }

  /** A line more at the end of the joined lines. */
  lemma {:induction false} JoinLast(xs: seq<string>, x: string)
    ensures Join(xs + [x]) == if xs == [] then x else Join(xs) + ", " + x
  {
    if xs != [] {
      if |xs| == 1 {
        assert (xs + [x])[1..] == [x];
      } else {
        assert (xs + [x])[1..] == xs[1..] + [x];
        JoinLast(xs[1..], x);
      }
    }
  }

  /** A line more at the end of the error text. */
  lemma {:induction false} ErrorLinesLast(xs: seq<string>, x: string)
    ensures ErrorLines(xs + [x]) == ErrorLines(xs) + RemoveFirst(x, ErrorTag) + Br + Br
  {
    if xs != [] {
      assert (xs + [x])[1..] == xs[1..] + [x];
      ErrorLinesLast(xs[1..], x);
    } else {
      assert [x][1..] == [];
    }
  }

  /** The loop's success text is the joined successes with one separator too many. */
  lemma {:induction false} SuccessMessageIsJoin(summary: seq<string>)
    ensures SuccessMessage(summary) == if Successes(summary) == [] then "" else Join(Successes(summary)) + ", "
  {
    if summary != [] {
      var front, val := summary[..|summary| - 1], summary[|summary| - 1];
      SuccessMessageIsJoin(front);
      SuccessesOfLast(summary);
      var sf := Successes(front);
      if !IsError(val) {
        assert SuccessMessage(summary) == SuccessMessage(front) + (val + ", ");
        assert Successes(summary) == sf + [val];
        JoinLast(sf, val);
        if sf == [] {
          assert Successes(summary) == [val];
        } else {
          assert SuccessMessage(front) == Join(sf) + ", ";
          assert Join(sf) + ", " + (val + ", ") == (Join(sf) + ", " + val) + ", ";
        }
      } else {
        assert SuccessMessage(summary) == SuccessMessage(front);
        assert Successes(summary) == sf + [];
        assert sf + [] == sf;
      }
    }
  }

  /** The loop's error text is the error lines, one after another. */
  lemma {:induction false} ErrorMessageIsLines(summary: seq<string>)
    ensures ErrorMessage(summary) == ErrorLines(Errors(summary))
  {
    if summary != [] {
      var front, val := summary[..|summary| - 1], summary[|summary| - 1];
      ErrorMessageIsLines(front);
      ErrorsOfLast(summary);
      if IsError(val) {
        ErrorLinesLast(Errors(front), val);
        assert ErrorMessage(summary) == ErrorMessage(front) + RemoveFirst(val, ErrorTag) + Br + Br;
      } else {
        assert Errors(summary) == Errors(front) + [];
        assert Errors(front) + [] == Errors(front);
      }
    }
  }

  /** A summary with an error line has error lines. */
  lemma {:induction false} ErrorInErrors(summary: seq<string>, i: nat)
    requires i < |summary| && IsError(summary[i])
    ensures Errors(summary) != []
  {
    if i > 0 {
      ErrorInErrors(summary[1..], i - 1);
    }
  }

  /** Error lines never make the text empty. */
  lemma {:induction false} ErrorLinesEmpty(xs: seq<string>)
    ensures ErrorLines(xs) == "" <==> xs == []
  {
    if xs != [] {
      assert |ErrorLines(xs)| >= 2;
    }
  }

  /** `displaySummary` shows a toast exactly when some line is not an error,
      holding those lines joined by `", "`, and an alert exactly when some
      line is an error, holding each of them without its first tag and
      followed by two carriage returns, then the footer. */
  lemma SummaryMeaning(summary: seq<string>)
    ensures var shown := SummarySpec(summary);
      && (shown.toast.Some? <==> Successes(summary) != [])
      && (shown.toast.Some? ==> shown.toast.value == Join(Successes(summary)))
      && (shown.alert.Some? <==> Errors(summary) != [])
      && (shown.alert.Some? ==> shown.alert.value == ErrorLines(Errors(summary)) + Footer)
  {
    SuccessMessageIsJoin(summary);
    ErrorMessageIsLines(summary);
    ErrorLinesEmpty(Errors(summary));
    var success := SuccessMessage(summary);
    if Successes(summary) != [] {
      var j := Join(Successes(summary));
      assert success == j + ", ";
      assert Substr(success, 0, |success| - 2) == success[..|j|];
      assert success[..|j|] == j;
    }
  }
}
