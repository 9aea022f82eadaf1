/**
 * The trade-in form: a four-step wizard that advances only past a valid step,
 * the photos staged for upload (at most ten images of at most 5 MB), the
 * consent check and the reference shown after a successful submission, and
 * the list of model years.
 *
 * The DOM is reduced to what the logic reads: the required controls of a step,
 * the plate input, the staged files, the consent box and the server's answer.
 */
module Reprise {
  import opened Wrappers
  import opened Text
  import opened Plate

  // ---------------------------------------------------------------- steps

  /** A required control of a step: a radio group (is any of it checked?) or a field with its value. */
  datatype Control = RadioGroup(name: string, anyChecked: bool) | Field(value: string)

  predicate Filled(c: Control)
  {
    match c
    case RadioGroup(_, anyChecked) => anyChecked
    case Field(value) => Trim(value) != []
  }

  /** What validateStep decides: every required control filled, and on step 1 a valid plate (when the plate input exists). */
  predicate StepValid(step: int, required: seq<Control>, plaque: Option<string>)
  {
    (forall k | 0 <= k < |required| :: Filled(required[k]))
    && (step == 1 && plaque.Some? ==> ValidatePlaque(plaque.value))
  }

  /** validateStep: the `valid` flag is cleared by any unfilled control, then by an invalid plate on step 1. */
  method ValidateStep(step: int, required: seq<Control>, plaque: Option<string>) returns (valid: bool)
    ensures valid <==> StepValid(step, required, plaque)
  {
    valid := true;
    var k := 0;
    while k < |required|
      invariant 0 <= k <= |required|
      invariant valid <==> forall j | 0 <= j < k :: Filled(required[j])
    {
      match required[k] {
        case RadioGroup(_, anyChecked) =>
          if !anyChecked {
            valid := false;
          }
        case Field(value) =>
          if Trim(value) == [] {
            valid := false;
          }
      }
      k := k + 1;
    }
    if step == 1 && plaque.Some? && !ValidatePlaque(plaque.value) {
      valid := false;
    }
  }

  class Wizard {
    var currentStep: int
    /** The progress steps marked completed. */
    var completed: set<int>

    constructor()
      ensures currentStep == 1 && completed == {}
    {
      currentStep := 1;
      completed := {};
    }

    /** goToStep: the step left behind is marked completed only when moving forward. */
    method GoToStep(step: int)
      modifies this
      ensures currentStep == step
      ensures completed == old(completed) + (if step > old(currentStep) then {old(currentStep)} else {})
    {
      if step > currentStep {
        completed := completed + {currentStep};
      }
      currentStep := step;
    }

    /** The "next" button: advance by one only when the current step validates. */
    method Next(required: seq<Control>, plaque: Option<string>) returns (advanced: bool)
      modifies this
      ensures advanced <==> StepValid(old(currentStep), required, plaque)
      ensures advanced ==> currentStep == old(currentStep) + 1 && completed == old(completed) + {old(currentStep)}
      ensures !advanced ==> currentStep == old(currentStep) && completed == old(completed)
    {
      advanced := ValidateStep(currentStep, required, plaque);
      if advanced {
        GoToStep(currentStep + 1);
      }
    }

    /** The "previous" button: back by one, with no validation and nothing marked. */
    method Prev()
      modifies this
      ensures currentStep == old(currentStep) - 1 && completed == old(completed)
    {
      GoToStep(currentStep - 1);
    }
  }

  /** An example run: two clicks on "next" from an invalid first step leave the wizard where it was, as `Next` promises. */
  method NoSkippingInvalidStep(w: Wizard, required: seq<Control>, plaque: Option<string>)
    requires w.currentStep == 1 && !StepValid(1, required, plaque)
    modifies w
    ensures w.currentStep == 1 && w.completed == old(w.completed)
  {
    var first := w.Next(required, plaque);
    var second := w.Next(required, plaque);
  }

  // ---------------------------------------------------------------- photos

  datatype Photo = Photo(name: string, size: nat, mime: string)

  const MaxFiles: nat := 10
  const MaxSize: nat := 5 * 1024 * 1024

  /** file.type.match(/image\/(jpeg|png|webp)/): the type contains one of the three, anywhere. */
  predicate ImageType(mime: string)
  {
    Contains(mime, "image/jpeg") || Contains(mime, "image/png") || Contains(mime, "image/webp")
  }

  predicate Acceptable(f: Photo)
  {
    f.size <= MaxSize && ImageType(f.mime)
  }

  datatype Notice = MaxReached | TooLarge(name: string) | NotAnImage(name: string)

  /** The staged list after one file is offered to it, and the notice shown when it is refused. */
  function Offer(staged: seq<Photo>, f: Photo): (r: (seq<Photo>, Option<Notice>))
    ensures r.1.None? <==> |staged| < MaxFiles && Acceptable(f)
    ensures r.1.None? ==> r.0 == staged + [f]
    ensures r.1.Some? ==> r.0 == staged
  {
    if |staged| >= MaxFiles then (staged, Some(MaxReached))
    else if f.size > MaxSize then (staged, Some(TooLarge(f.name)))
    else if !ImageType(f.mime) then (staged, Some(NotAnImage(f.name)))
    else (staged + [f], None)
  }

  /** The staged list after the files are offered one after the other. */
  function Stage(staged: seq<Photo>, files: seq<Photo>): seq<Photo>
  {
    if files == [] then staged
    else Offer(Stage(staged, files[..|files| - 1]), files[|files| - 1]).0
  }

  /** The notices shown while the files are offered. */
  function Notices(staged: seq<Photo>, files: seq<Photo>): seq<Notice>
  {
    if files == [] then []
    else
      var n := Offer(Stage(staged, files[..|files| - 1]), files[|files| - 1]).1;
      Notices(staged, files[..|files| - 1]) + (if n.Some? then [n.value] else [])
  }

  /** Staging only appends acceptable files, and never past ten. */
  lemma {:induction false} StageShape(staged: seq<Photo>, files: seq<Photo>)
    requires |staged| <= MaxFiles
    ensures var r := Stage(staged, files);
            |staged| <= |r| <= MaxFiles && r[..|staged|] == staged
            && forall k | |staged| <= k < |r| :: Acceptable(r[k]) && r[k] in files
    decreases |files|
  {
    if files != [] {
      var init := files[..|files| - 1];
      StageShape(staged, init);
      var before := Stage(staged, init);
      var r := Stage(staged, files);
      forall k | |staged| <= k < |r| ensures Acceptable(r[k]) && r[k] in files {
        if k < |before| {
          assert r[k] == before[k];
          assert before[k] in init;
        } else {
          assert r[k] == files[|files| - 1];
        }
      }
    }
  }

  class PhotoStaging {
    var uploaded: seq<Photo>
    /** The files of the form's file input. */
    var inputFiles: seq<Photo>

    predicate Valid()
      reads this
    {
      |uploaded| <= MaxFiles && forall k | 0 <= k < |uploaded| :: Acceptable(uploaded[k])
    }

    constructor()
      ensures uploaded == [] && inputFiles == [] && Valid()
    {
      uploaded := [];
      inputFiles := [];
    }

    /** updateFileInput: the input's files become the staged list. */
    method UpdateFileInput()
      modifies this
      ensures inputFiles == uploaded && uploaded == old(uploaded)
    {
      inputFiles := uploaded;
    }

    /** handleFiles: offer each file in turn, then refresh the input. */
    method HandleFiles(files: seq<Photo>) returns (notices: seq<Notice>)
      requires Valid()
      modifies this
      ensures uploaded == Stage(old(uploaded), files) && notices == Notices(old(uploaded), files)
      ensures inputFiles == uploaded
      ensures Valid()
    {
      notices := [];
      var i := 0;
      while i < |files|
        invariant 0 <= i <= |files|
        invariant uploaded == Stage(old(uploaded), files[..i]) && notices == Notices(old(uploaded), files[..i])
      {
        var f := files[i];
        assert files[..i + 1][..i] == files[..i];
        if |uploaded| >= MaxFiles {
          notices := notices + [MaxReached];
        } else if f.size > MaxSize {
          notices := notices + [TooLarge(f.name)];
        } else if !ImageType(f.mime) {
          notices := notices + [NotAnImage(f.name)];
        } else {
          uploaded := uploaded + [f];
        }
        i := i + 1;
      }
      assert files[..|files|] == files;
      StageShape(old(uploaded), files);
      UpdateFileInput();
    }

    /** The remove button of the preview at `index`: splice(index, 1), then refresh the input. */
    method Remove(index: nat)
      requires Valid()
      modifies this
      ensures index < |old(uploaded)| ==> uploaded == old(uploaded)[..index] + old(uploaded)[index + 1..]
      ensures index >= |old(uploaded)| ==> uploaded == old(uploaded)
      ensures inputFiles == uploaded
      ensures Valid()
    {
      if index < |uploaded| {
        uploaded := uploaded[..index] + uploaded[index + 1..];
      }
      UpdateFileInput();
    }
  }

  // ---------------------------------------------------------------- submission

  /** What the form's POST comes back with: success with the lead's id, or any failure. */
  datatype Answer = Accepted(id: string) | Failed

  /** "REF-" and the first eight characters of the id, upper-cased. */
  function ReferenceCode(id: string): (r: string)
    ensures |r| == 4 + Min(8, |id|) && r[..4] == "REF-"
    ensures forall k | 4 <= k < |r| :: r[k] == ToUpper(id[k - 4])
  {
    "REF-" + UpperString(Take(id, 8))
  }

  class Submission {
    var buttonDisabled: bool
    var reference: Option<string>
    var requests: nat

    constructor()
      ensures !buttonDisabled && reference == None && requests == 0
    {
      buttonDisabled := false;
      reference := None;
      requests := 0;
    }

    /** The submit handler: nothing is sent without consent; a failure re-enables the button. */
    method Submit(consent: bool, answer: Answer)
      modifies this
      ensures !consent ==> requests == old(requests) && buttonDisabled == old(buttonDisabled) && reference == old(reference)
      ensures consent ==> requests == old(requests) + 1
      ensures consent && answer.Accepted? ==> buttonDisabled && reference == Some(ReferenceCode(answer.id))
      ensures consent && answer.Failed? ==> !buttonDisabled && reference == old(reference)
    {
      if !consent {
        return;
      }
      buttonDisabled := true;
      requests := requests + 1;
      match answer
      case Accepted(id) =>
        reference := Some(ReferenceCode(id));
      case Failed =>
        buttonDisabled := false;
    }
  }

  // ---------------------------------------------------------------- years

  /** initYearSelect: the current year down to 1990, one option each. */
  method YearOptions(currentYear: int) returns (years: seq<int>)
    ensures |years| == Max(currentYear - 1989, 0)
    ensures forall k | 0 <= k < |years| :: years[k] == currentYear - k
    ensures currentYear >= 1990 ==> years[0] == currentYear && years[|years| - 1] == 1990
  {
    years := [];
    var year := currentYear;
    while year >= 1990
      invariant year <= currentYear
      invariant year >= 1989 || year == currentYear
      invariant |years| == currentYear - year
      invariant forall k | 0 <= k < |years| :: years[k] == currentYear - k
      decreases year
    {
      years := years + [year];
      year := year - 1;
    }
  }
}
