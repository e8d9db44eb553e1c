/** The grammar model (src/parser/language.ts): a language is a named set
    of statement templates, a template an ordered list of requirements, and
    a requirement asks for a token (by type and/or text) or for a nested
    statement. The JSON definitions are plain values; the live objects are
    classes, since the source compares them by identity. */
module Grammar {
  import opened Wrappers

  /** What `addRequirement` throws for a requirement already listed. */
  const REQUIREMENT_TWICE_MESSAGE: string := "Cannot add requirement more than once, you can set <requirement>.repeat = <number> for this functionality"

  /** What `addStatementTemplate` throws for a template already present.
      The template renders as `[object Object]`: `StatementTemplate`
      defines no `toString` of its own. */
  const TEMPLATE_TWICE_MESSAGE: string := "Cannot add statement template more than once [object Object]"

  /** `"token" | "statement"`. */
  datatype RequirementType = OfToken | OfStatement

  /** `RequirementDefinition`: `type` is `kind`, the optional members are
      `Option`s. */
  datatype RequirementDefinition = RequirementDefinition(
    kind: RequirementType,
    tokenType: Option<string>,
    tokenData: Option<string>,
    statementId: Option<string>,
    repeat: Option<int>)

  /** `StatementDefinition`; `abstract` is `abstractFlag`. */
  datatype StatementDefinition = StatementDefinition(id: string, abstractFlag: Option<bool>, requirements: seq<RequirementDefinition>)

  /** `LanguageDefinition`, keeping the source's spelling of its field. */
  datatype LanguageDefinition = LanguageDefinition(name: string, statmentTemplates: seq<StatementDefinition>)

  /** The fields of a live `Requirement`; every one is absent until set. */
  datatype RequirementValue = RequirementValue(
    kind: Option<RequirementType>,
    repeat: Option<int>,
    statementId: Option<string>,
    tokenType: Option<string>,
    tokenData: Option<string>)

  /** What a template offers the parser: its id and its requirements, in order. */
  datatype TemplateValue = TemplateValue(id: string, requirements: seq<RequirementValue>)

  /** The value `Requirement.fromJSON` gives a requirement built from `def`. */
  function Copied(def: RequirementDefinition): (v: RequirementValue)
    ensures v.kind.Some?
    ensures RequirementDefinition(v.kind.value, v.tokenType, v.tokenData, v.statementId, v.repeat) == def
  {
    RequirementValue(Some(def.kind), def.repeat, def.statementId, def.tokenType, def.tokenData)
  }

  class Requirement {
    var kind: Option<RequirementType>
    var repeat: Option<int>
    var statementId: Option<string>
    var tokenType: Option<string>
    var tokenData: Option<string>

    constructor ()
      ensures Value() == RequirementValue(None, None, None, None, None)
    {
      kind, repeat, statementId, tokenType, tokenData := None, None, None, None, None;
    }

    function Value(): RequirementValue
      reads this
    {
      RequirementValue(kind, repeat, statementId, tokenType, tokenData)
    }

    method SetType(t: RequirementType) returns (self: Requirement)
      modifies this
      ensures self == this && Value() == old(Value()).(kind := Some(t))
    {
      kind := Some(t);
      self := this;
    }

    /** The optional setters accept an absent value, as `fromJSON` passes one. */
    method SetTokenType(t: Option<string>) returns (self: Requirement)
      modifies this
      ensures self == this && Value() == old(Value()).(tokenType := t)
    {
      tokenType := t;
      self := this;
    }

    method SetTokenData(d: Option<string>) returns (self: Requirement)
      modifies this
      ensures self == this && Value() == old(Value()).(tokenData := d)
    {
      tokenData := d;
      self := this;
    }

    method SetStatementId(id: Option<string>) returns (self: Requirement)
      modifies this
      ensures self == this && Value() == old(Value()).(statementId := id)
    {
      statementId := id;
      self := this;
    }

    method SetRepeats(times: Option<int>) returns (self: Requirement)
      modifies this
      ensures self == this && Value() == old(Value()).(repeat := times)
    {
      repeat := times;
      self := this;
    }

    /** A new requirement holding every member of `def` as it is: an absent
        `repeat` stays absent, the documented default of 1 is not applied. */
    static method FromJSON(def: RequirementDefinition) returns (r: Requirement)
      ensures fresh(r) && r.Value() == Copied(def)
    {
      r := new Requirement();
      var _ := r.SetType(def.kind);
      var _ := r.SetStatementId(def.statementId);
      var _ := r.SetTokenType(def.tokenType);
      var _ := r.SetTokenData(def.tokenData);
      var _ := r.SetRepeats(def.repeat);
    }
  }

  function RequirementValues(rs: seq<Requirement>): (vs: seq<RequirementValue>)
    reads rs
    ensures |vs| == |rs|
    ensures forall i :: 0 <= i < |rs| ==> vs[i] == rs[i].Value()
  {
    if rs == [] then [] else [rs[0].Value()] + RequirementValues(rs[1..])
  }

  class StatementTemplate {
    var id: string
    var abstractFlag: Option<bool>
    var requirements: seq<Requirement>

    /** `includes` compares by identity, so one object is never listed twice. */
    ghost predicate Valid()
      reads this
    {
      forall i, j :: 0 <= i < j < |requirements| ==> requirements[i] != requirements[j]
    }

    constructor (id: string)
      ensures this.id == id && abstractFlag == None && requirements == []
      ensures Valid()
    {
      this.id := id;
      abstractFlag := None;
      requirements := [];
    }

    method SetAbstract(abs: Option<bool>) returns (self: StatementTemplate)
      modifies this
      ensures self == this && abstractFlag == abs
      ensures id == old(id) && requirements == old(requirements)
    {
      abstractFlag := abs;
      self := this;
    }

    /** `undefined` until `SetAbstract` is called. */
    function IsAbstract(): Option<bool>
      reads this
    {
      abstractFlag
    }

    function HasRequirement(req: Requirement): bool
      reads this
    {
      req in requirements
    }

    /** Throws for an object already listed; otherwise appends it. */
    method AddRequirement(req: Requirement) returns (r: Outcome<string>)
      requires Valid()
      modifies this
      ensures Valid()
      ensures r.Fail? <==> req in old(requirements)
      ensures r.Fail? ==> requirements == old(requirements)
      ensures r.Fail? ==> r.error == REQUIREMENT_TWICE_MESSAGE
      ensures r.Pass? ==> requirements == old(requirements) + [req]
      ensures id == old(id) && abstractFlag == old(abstractFlag)
    {
      if HasRequirement(req) {
        return Fail(REQUIREMENT_TWICE_MESSAGE);
      }
      requirements := requirements + [req];
      r := Pass;
    }

    function Value(): TemplateValue
      reads this, requirements
    {
      TemplateValue(id, RequirementValues(requirements))
    }

    /** Keeps the id and the abstract flag and builds one fresh requirement
        per definition, in order; two equal definitions give two distinct
        objects, so the duplicate check never fires. */
    static method FromJSON(def: StatementDefinition) returns (t: StatementTemplate)
      ensures fresh(t) && t.Valid()
      ensures t.id == def.id && t.abstractFlag == def.abstractFlag
      ensures |t.requirements| == |def.requirements|
      ensures forall i :: 0 <= i < |def.requirements| ==>
        fresh(t.requirements[i]) && t.requirements[i].Value() == Copied(def.requirements[i])
    {
      t := new StatementTemplate(def.id);
      var _ := t.SetAbstract(def.abstractFlag);
      var i := 0;
      while i < |def.requirements|
        invariant 0 <= i <= |def.requirements|
        invariant fresh(t) && t.Valid()
        invariant t.id == def.id && t.abstractFlag == def.abstractFlag
        invariant |t.requirements| == i
        invariant forall k :: 0 <= k < i ==>
          fresh(t.requirements[k]) && t.requirements[k].Value() == Copied(def.requirements[k])
      {
        ghost var before := t.requirements;
        var req := Requirement.FromJSON(def.requirements[i]);
        assert req !in before;
        var r := t.AddRequirement(req);
        assert r.Pass? && t.requirements == before + [req];
        i := i + 1;
      }
    }
  }

  /** A valid instance of a template; the class has no members. */
  class Statement {
  }

  /** The requirement objects of the given templates. */
  ghost function Requirements(ts: seq<StatementTemplate>): set<object>
    reads ts
  {
    set t, r | t in ts && r in t.requirements :: r
  }

  function TemplateValues(ts: seq<StatementTemplate>): (vs: seq<TemplateValue>)
    reads ts, Requirements(ts)
    ensures |vs| == |ts|
    ensures forall i :: 0 <= i < |ts| ==> vs[i] == ts[i].Value()
  {
    if ts == [] then []
    else
      assert forall r :: r in ts[0].requirements ==> r in Requirements(ts);
      [ts[0].Value()] + TemplateValues(ts[1..])
  }

  class Language {
    var name: string
    /** A JavaScript Set iterates in insertion order, so the set is a
        sequence without repeats. */
    var statmentTemplates: seq<StatementTemplate>

    constructor (name: string)
      ensures this.name == name && statmentTemplates == []
    {
      this.name := name;
      statmentTemplates := [];
    }

    function GetName(): string
      reads this
    {
      name
    }

    function HasStatementTemplate(template: StatementTemplate): bool
      reads this
    {
      template in statmentTemplates
    }

    /** Throws for a template already present, and otherwise returns
        without inserting it: the method changes nothing in either case. */
    method AddStatementTemplate(template: StatementTemplate) returns (r: Outcome<string>)
      ensures r.Fail? <==> template in statmentTemplates
      ensures r.Fail? ==> r.error == TEMPLATE_TWICE_MESSAGE
    {
      if HasStatementTemplate(template) {
        return Fail(TEMPLATE_TWICE_MESSAGE);
      }
      r := Pass;
    }

    /** A fresh template with the given id and no requirements; adding it
        to the language does not throw, and does not insert it either. */
    method CreateStatementTemplate(id: string) returns (t: StatementTemplate)
      ensures fresh(t) && t.Valid() && t.id == id && t.requirements == [] && t.abstractFlag == None
    {
      t := new StatementTemplate(id);
      var r := AddStatementTemplate(t);
      assert r.Pass?;
    }

    /** The templates as values, in iteration order: what the parser reads. */
    function Snapshot(): (vs: seq<TemplateValue>)
      reads this, statmentTemplates, Requirements(statmentTemplates)
      ensures |vs| == |statmentTemplates|
      ensures forall i :: 0 <= i < |vs| ==> vs[i].id == statmentTemplates[i].id
      ensures forall i :: 0 <= i < |vs| ==> vs[i] == statmentTemplates[i].Value()
    {
      TemplateValues(statmentTemplates)
    }

    /** Copies the name and converts every template definition; since
        `AddStatementTemplate` never inserts, the language ends up with no
        templates at all. */
    static method FromJSON(def: LanguageDefinition) returns (l: Language)
      ensures fresh(l) && l.name == def.name && l.statmentTemplates == []
    {
      l := new Language(def.name);
      var i := 0;
      while i < |def.statmentTemplates|
        invariant 0 <= i <= |def.statmentTemplates|
        invariant fresh(l) && l.name == def.name && l.statmentTemplates == []
      {
        var statement := StatementTemplate.FromJSON(def.statmentTemplates[i]);
        var r := l.AddStatementTemplate(statement);
        assert r.Pass?;
        i := i + 1;
      }
    }
  }
}
