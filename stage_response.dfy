/** StageResponse and its Builder. The builder's three fields start at their
    defaults and are replaced or extended by fluent setters; build() hands
    them to a response whose fields are fixed. The state map is one heap
    object that the builder and every response it built share. */
module StageResponses {
  import opened JavaLang
  import opened Json
  import opened BuilderCalls

  /** The java.util.HashMap a builder keeps its state in. */
  class HashMap {
    var contents: map<string, string>

    constructor ()
      ensures contents == map[]
    {
      contents := map[];
    }

    /** Map.put: the key now holds the value, every other key is untouched. */
    method Put(key: string, value: string)
      modifies this
      ensures contents == old(contents)[key := value]
    {
      contents := contents[key := value];
    }
  }

  /** The view Collections.unmodifiableMap returns: it reads through to the
      map it wraps and refuses every update. */
  class UnmodifiableMap {
    const backing: HashMap

    constructor (backing: HashMap)
      ensures this.backing == backing
    {
      this.backing := backing;
    }

    function Contents(): map<string, string>
      reads backing
    {
      backing.contents
    }

    /** An update through the view throws and changes nothing. */
    method Put(key: string, value: string) returns (r: Result<Option<string>>)
      ensures r == Failure(UnsupportedOperationException)
    {
      r := Failure(UnsupportedOperationException);
    }
  }

  /** What one stage hands back to the process: the tag naming it, what it
      still needs from the caller, and the state it wants kept. */
  class StageResponse {
    const stageTag: string
    const requirements: JsonValue
    const state: HashMap

    /** The private constructor: takes the builder's tag, requirements and
        state map by reference. */
    constructor (builder: Builder)
      ensures stageTag == builder.stageTag
      ensures requirements == builder.requirements
      ensures state == builder.state
    {
      stageTag := builder.stageTag;
      requirements := builder.requirements;
      state := builder.state;
    }

    /** The tag stored at construction. */
    function GetStageTag(): string
    {
      stageTag
    }

    /** The requirements stored at construction. */
    function GetRequirements(): JsonValue
    {
      requirements
    }

    /** The response asks the caller for more input exactly when its
        requirements hold at least one member. */
    predicate HasRequirements()
      ensures HasRequirements() <==> HasMembers(requirements)
    {
      SizePositiveIffMembers(requirements);
      Size(requirements) > 0
    }

    /** A new read-only view of the state map. */
    method GetState() returns (v: UnmodifiableMap)
      ensures fresh(v) && v.backing == state
      ensures v.Contents() == state.contents
    {
      v := new UnmodifiableMap(state);
    }

    /** The fields of the response as values. */
    function View(): Draft
      reads state
    {
      Draft(stageTag, requirements, state.contents)
    }
  }

  /** The mutable record a stage fills in before freezing it into a
      StageResponse; every setter hands back the builder itself. */
  class Builder {
    var stageTag: string
    var requirements: JsonValue
    const state: HashMap

    /** The fields of the builder as values. */
    function Current(): Draft
      reads this, state
    {
      Draft(stageTag, requirements, state.contents)
    }

    constructor ()
      ensures fresh(state)
      ensures stageTag == EmptyTag && requirements == EmptyJson && state.contents == map[]
      ensures Current() == Initial()
    {
      stageTag := EmptyTag;
      requirements := EmptyJson;
      state := new HashMap();
    }

    method SetStageTag(tag: Option<string>) returns (r: Result<Builder>)
      modifies this
      ensures tag.None? ==> r == Failure(NullPointerException) && unchanged(this)
      ensures tag.Some? ==> r == Success(this) && stageTag == tag.value
      ensures requirements == old(requirements) && state.contents == old(state.contents)
      ensures r.Success? <==> Apply(old(Current()), Call.SetStageTag(tag)).Success?
      ensures r.Success? ==> Current() == Apply(old(Current()), Call.SetStageTag(tag)).value
    {
      if tag.None? {
        return Failure(NullPointerException);
      }
      stageTag := tag.value;
      r := Success(this);
    }

    method SetRequirements(reqs: Option<JsonValue>) returns (r: Result<Builder>)
      modifies this
      ensures reqs.None? ==> r == Failure(NullPointerException) && unchanged(this)
      ensures reqs.Some? ==> r == Success(this) && requirements == reqs.value
      ensures stageTag == old(stageTag) && state.contents == old(state.contents)
      ensures r.Success? <==> Apply(old(Current()), Call.SetRequirements(reqs)).Success?
      ensures r.Success? ==> Current() == Apply(old(Current()), Call.SetRequirements(reqs)).value
    {
      if reqs.None? {
        return Failure(NullPointerException);
      }
      requirements := reqs.value;
      r := Success(this);
    }

    method AddState(key: Option<string>, value: Option<string>) returns (r: Result<Builder>)
      modifies state
      ensures key.None? || value.None? ==>
        r == Failure(NullPointerException) && unchanged(state)
      ensures key.Some? && value.Some? ==>
        r == Success(this) && state.contents == old(state.contents)[key.value := value.value]
      ensures forall k :: Some(k) != key ==> Get(state.contents, k) == Get(old(state.contents), k)
      ensures stageTag == old(stageTag) && requirements == old(requirements)
      ensures r.Success? <==> Apply(old(Current()), Call.AddState(key, value)).Success?
      ensures r.Success? ==> Current() == Apply(old(Current()), Call.AddState(key, value)).value
    {
      if key.None? || value.None? {
        return Failure(NullPointerException);
      }
      state.Put(key.value, value.value);
      r := Success(this);
    }

    method Build() returns (response: StageResponse)
      ensures fresh(response)
      ensures response.GetStageTag() == stageTag
      ensures response.GetRequirements() == requirements
      ensures response.state == state
      ensures response.View() == Current()
    {
      response := new StageResponse(this);
    }
  }

  /** StageResponse.newBuilder(). */
  method NewBuilder() returns (b: Builder)
    ensures fresh(b) && fresh(b.state)
    ensures b.Current() == Initial()
    ensures Size(b.requirements) == 0
  {
    b := new Builder();
  }

  /** The built response shares the builder's state map: a value added to
      the builder after build() shows through the response's state. */
  method AddStateAfterBuild(b: Builder, key: string, value: string) returns (response: StageResponse)
    modifies b.state
    ensures response.state == b.state
    ensures response.View().state == old(b.state.contents)[key := value]
  {
    response := b.Build();
    var _ := b.AddState(Some(key), Some(value));
  }
}
