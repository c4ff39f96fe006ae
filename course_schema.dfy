/**
 * The Course schema: the trimmed title, the default of the scholarship
 * flag, which documents Mongoose accepts and the message each rejected path
 * reports.
 */
module CourseSchema {
  import opened Wrappers
  import opened JsText
  import opened Mongoose

  /** The id a course refers to its bootcamp by. */
  type BootcampId = string

  /**
   * A course as given to the model; `None` is an undefined path. The
   * scholarship flag keeps the schema's spelling.
   */
  datatype Course = Course(
    title: Option<string>,
    description: Option<string>,
    weeks: Option<string>,
    tuition: Option<real>,
    minimumSkill: Option<string>,
    scholarhipsAvailable: Option<bool>,
    bootcamp: Option<BootcampId>)

  const Skills: seq<string> := ["beginner", "intermediate", "advanced"]

  const TitleRules: seq<Rule> := [Required(Some("Please add a course title"))]
  const DescriptionRules: seq<Rule> := [Required(Some("Please add a description"))]
  const WeeksRules: seq<Rule> := [Required(Some("Please add the number of weeks"))]
  const MinimumSkillRules: seq<Rule> := [Required(Some("Please add a minimum skill")), Enum(Skills)]

  /**
   * What Mongoose stores: the title trimmed (`trim: true`), the scholarship
   * flag `false` when it was not given (`default: false`), the rest as given.
   */
  function Normalise(c: Course): (r: Course)
    ensures r.(title := c.title, scholarhipsAvailable := c.scholarhipsAvailable) == c
    ensures c.title.None? <==> r.title.None?
    ensures r.title.Some? ==> r.title.value == Trim(c.title.value)
    ensures r.scholarhipsAvailable == Some(c.scholarhipsAvailable.GetOr(false))
  {
    c.(title := if c.title.Some? then Some(Trim(c.title.value)) else None,
       scholarhipsAvailable := Some(c.scholarhipsAvailable.GetOr(false)))
  }

  /** Each path's outcome, in schema order; the flag has no validator. */
  function Outcomes(c: Course): seq<(string, Option<string>)> {
    [ ("title", FirstFailure("title", TitleRules, c.title)),
      ("description", FirstFailure("description", DescriptionRules, c.description)),
      ("weeks", FirstFailure("weeks", WeeksRules, c.weeks)),
      ("tuition", Present("tuition", Some("Please add a tuition cost"), c.tuition)),
      ("minimumSkill", FirstFailure("minimumSkill", MinimumSkillRules, c.minimumSkill)),
      ("bootcamp", Present("bootcamp", None, c.bootcamp)) ]
  }

  /** The validation errors of a stored course. */
  function Errors(c: Course): seq<FieldError> {
    Collect(Outcomes(c))
  }

  /**
   * A valid stored course: non-empty title, description and weeks, a
   * tuition, one of the three skill levels, and a bootcamp reference.
   */
  predicate Valid(c: Course) {
    && c.title.Some? && c.title.value != []
    && c.description.Some? && c.description.value != []
    && c.weeks.Some? && c.weeks.value != []
    && c.tuition.Some?
    && c.minimumSkill.Some? && c.minimumSkill.value in Skills
    && c.bootcamp.Some?
  }

  /** A required text path with nothing but `required`: only a missing or empty text fails. */
  lemma {:induction false} RequiredTextError(path: string, m: string, v: Option<string>)
    ensures FirstFailure(path, [Required(Some(m))], v) == if v.None? || v.value == [] then Some(m) else None
  {
    FirstFailureOne(path, Required(Some(m)), v);
  }

  /**
   * The skill level's error: missing or empty is reported as missing; any
   * other text outside the three levels gets the enum message naming it.
   */
  lemma {:induction false} MinimumSkillError(s: Option<string>)
    ensures FirstFailure("minimumSkill", MinimumSkillRules, s) ==
      if s.None? || s.value == [] then Some("Please add a minimum skill")
      else if s.value !in Skills then Some(EnumMessage(s.value, "minimumSkill"))
      else None
  {
    FirstFailureTwo("minimumSkill", MinimumSkillRules[0], MinimumSkillRules[1], s);
  }

  lemma {:induction false} NoOutcomeFails(c: Course)
    ensures Errors(c) == [] <==>
      && FirstFailure("title", TitleRules, c.title).None?
      && FirstFailure("description", DescriptionRules, c.description).None?
      && FirstFailure("weeks", WeeksRules, c.weeks).None?
      && c.tuition.Some?
      && FirstFailure("minimumSkill", MinimumSkillRules, c.minimumSkill).None?
      && c.bootcamp.Some?
  {
    var outcomes := Outcomes(c);
    CollectEmpty(outcomes);
    assert (forall i :: 0 <= i < |outcomes| ==> outcomes[i].1.None?) <==>
      && outcomes[0].1.None? && outcomes[1].1.None? && outcomes[2].1.None?
      && outcomes[3].1.None? && outcomes[4].1.None? && outcomes[5].1.None?;
  }

  /** Mongoose reports no error exactly for the valid courses. */
  lemma {:induction false} ValidIff(c: Course)
    ensures Errors(c) == [] <==> Valid(c)
  {
    NoOutcomeFails(c);
    RequiredTextError("title", "Please add a course title", c.title);
    RequiredTextError("description", "Please add a description", c.description);
    RequiredTextError("weeks", "Please add the number of weeks", c.weeks);
    MinimumSkillError(c.minimumSkill);
  }

  /** Storing a stored course again changes nothing; in particular an explicit flag is kept. */
  lemma {:induction false} NormaliseIdempotent(c: Course)
    ensures Normalise(Normalise(c)) == Normalise(c)
  {
    if c.title.Some? {
      TrimIdempotent(c.title.value);
    }
  }

  /** Validation does not look at the flag: the default cannot make a course invalid. */
  lemma {:induction false} FlagUnchecked(c: Course, flag: Option<bool>)
    ensures Errors(c.(scholarhipsAvailable := flag)) == Errors(c)
  {
    assert Outcomes(c.(scholarhipsAvailable := flag)) == Outcomes(c);
  }

  /** A course without a bootcamp reference reports Mongoose's own required message. */
  lemma {:induction false} BootcampRequired(c: Course)
    requires c.bootcamp.None?
    ensures FieldError("bootcamp", RequiredMessage("bootcamp", None)) in Errors(c)
  {
    var outcomes := Outcomes(c);
    assert outcomes[5] == ("bootcamp", Some(RequiredMessage("bootcamp", None)));
    CollectMembers(outcomes, FieldError("bootcamp", RequiredMessage("bootcamp", None)));
  }

  /** Spelled out, that message is: Path `bootcamp` is required. */
  lemma {:induction false} BootcampRequiredMessage()
    ensures RequiredMessage("bootcamp", None) == "Path `bootcamp` is required."
  {
  }

  /** A skill level is compared as written: `Beginner` is refused, naming the value. */
  lemma {:induction false} SkillCaseSensitive(c: Course)
    requires c.minimumSkill == Some("Beginner")
    ensures FieldError("minimumSkill", EnumMessage("Beginner", "minimumSkill")) in Errors(c)
  {
    MinimumSkillError(c.minimumSkill);
    assert "Beginner" !in Skills;
    var outcomes := Outcomes(c);
    assert outcomes[4] == ("minimumSkill", Some(EnumMessage("Beginner", "minimumSkill")));
    CollectMembers(outcomes, FieldError("minimumSkill", EnumMessage("Beginner", "minimumSkill")));
  }
}
