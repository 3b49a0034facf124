/** The V4L2 test: a single descriptor that renders its own template. */
module V4L2 {
  import opened Tests

  /** The template the test renders with. */
  const Template := "v4l2.yaml.jinja2"

  /** The class attributes: the device patterns it declares (a wildcard over
      the QEMU family and one FVP model), its name and timeout, and its need
      for the test-definition bundle. */
  const Desc := TestDesc("v4l2", ["qemu-*", "fvp-aemva"], 25, true)

  /** The descriptor's class attributes as the source declares them. */
  lemma DescAttributes()
    ensures Desc.name == "v4l2" && Desc.timeout == 25 && Desc.needTestDefinition
    ensures Desc.devices == ["qemu-*", "fvp-aemva"]
  {
  }

  /** The two keys `render` assigns, with the instance's values. */
  function Fields(t: TestDesc): Bag {
    map["name" := Str(t.name), "timeout" := Int(t.timeout)]
  }

  /** `render` of a V4L2 instance `t`: assigns its name and timeout into the
      caller's keyword bag and hands the bag to the V4L2 template. */
  method Render(t: TestDesc, kwargs: Bag) returns (job: TemplateCall)
    ensures job.template == Template
    ensures job.bag.Keys == kwargs.Keys + {"name", "timeout"}
    ensures Overrides(kwargs, Fields(t), job.bag)
  {
    var bag := kwargs;
    bag := bag["name" := Str(t.name)];
    bag := bag["timeout" := Int(t.timeout)];
    job := TemplateCall(Template, bag);
  }

  /** For the class's own attributes the bag receives name "v4l2" and timeout
      25, and render adds no benchmark key: `configfile` and `iterations` are
      present afterwards exactly when the caller supplied them, with the
      caller's value. */
  lemma RenderDescBag(kwargs: Bag, after: Bag)
    requires Overrides(kwargs, Fields(Desc), after)
    ensures after["name"] == Str("v4l2") && after["timeout"] == Int(25)
    ensures forall k | k in {"configfile", "iterations"} ::
      (k in after <==> k in kwargs) && (k in kwargs ==> after[k] == kwargs[k])
  {
    assert "name" in Fields(Desc) && "timeout" in Fields(Desc);
  }
}
