/**
 * The configuration of the repository's filter tests, written in the current
 * configuration format, and the decisions of those test cases that the
 * current filter agrees with.
 */
module FilterExamples {
  import opened Wrappers
  import opened Registry
  import opened ResourceFilter

  /** The entries of the test configuration, as the current format writes them. */
  function TestConfig(): (cfg: Config)
  {
    map[
      "aws_iam_role" := [ResourceTypeFilter(Some("^foo.*"), None, None)],
      "aws_security_group" := [],
      "aws_instance" := [ResourceTypeFilter(None, Some(map["foo" := "bar", "bla" := "blub"]), None)],
      "aws_vpc" := [ResourceTypeFilter(Some("^foo.*"), Some(map["foo" := "bar"]), None)]
    ]
  }

  /** A resource of the filter tests: a type, an id and tags, with no attributes or creation time. */
  function TestResource(resType: string, id: string, tags: map<string, string>): (r: Resource)
  {
    Resource(resType, id, map[], tags, None)
  }

  /**
   * The decisions of the test configuration for an instance with unrelated
   * or no tags, for IAM roles with matching and non-matching ids, for a
   * security group, and for a VPC whose id and tags both fail.
   */
  lemma TestConfigDecisions(rx: Regexp)
    requires rx.MatchString("^foo.*", "foo-lala")
    requires !rx.MatchString("^foo.*", "some-id")
    ensures !Filter(TestConfig()).Selected(rx, TestResource("aws_instance", "some-id", map["any" := "tag"]))
    ensures !Filter(TestConfig()).Selected(rx, TestResource("aws_instance", "some-id", map[]))
    ensures Filter(TestConfig()).Selected(rx, TestResource("aws_iam_role", "foo-lala", map["any" := "tag"]))
    ensures !Filter(TestConfig()).Selected(rx, TestResource("aws_iam_role", "some-id", map["foo" := "bar"]))
    ensures !Filter(TestConfig()).Selected(rx, TestResource("aws_iam_role", "some-id", map[]))
    ensures Filter(TestConfig()).Selected(rx, TestResource("aws_security_group", "any-id", map["any" := "tag"]))
    ensures !Filter(TestConfig()).Selected(rx, TestResource("aws_vpc", "some-id", map["any" := "tag"]))
  {
    var f := Filter(TestConfig());
    var instance := TestConfig()["aws_instance"][0];
    assert !instance.TagsHold(rx, map["any" := "tag"]) by {
      assert "foo" in instance.tags.value;
    }
    assert !instance.TagsHold(rx, map[]) by {
      assert "foo" in instance.tags.value;
    }
    var role := TestConfig()["aws_iam_role"][0];
    assert role.Selects(rx, TestResource("aws_iam_role", "foo-lala", map["any" := "tag"]));
    assert "foo" in TestConfig()["aws_vpc"][0].tags.value;
  }

  /** In the test configuration an IAM role is selected iff its id matches `^foo.*`, whatever its tags. */
  lemma TestRoleDecidedById(rx: Regexp, id: string, tags: map<string, string>)
    ensures Filter(TestConfig()).Selected(rx, TestResource("aws_iam_role", id, tags)) <==> rx.MatchString("^foo.*", id)
  {
    var role := TestConfig()["aws_iam_role"][0];
    if rx.MatchString("^foo.*", id) {
      assert role.Selects(rx, TestResource("aws_iam_role", id, tags));
    }
  }

  /** The security group's empty entry list selects every security group, whatever its id and tags. */
  lemma TestSecurityGroupSelectsAll(rx: Regexp, id: string, tags: map<string, string>)
    ensures Filter(TestConfig()).Selected(rx, TestResource("aws_security_group", id, tags))
  {
  }

  /**
   * The IAM role's only entry has an id pattern and nothing else, so the id
   * alone decides an IAM role, whatever its tags: `foo-lala` is selected and
   * `lala-foo` is not.
   */
  lemma TestIdDecisions(rx: Regexp, tags: map<string, string>)
    requires rx.MatchString("^foo.*", "foo-lala")
    requires !rx.MatchString("^foo.*", "lala-foo")
    ensures Filter(TestConfig()).Selected(rx, TestResource("aws_iam_role", "foo-lala", tags))
    ensures !Filter(TestConfig()).Selected(rx, TestResource("aws_iam_role", "lala-foo", tags))
  {
    var role := TestConfig()["aws_iam_role"][0];
    assert role.Selects(rx, TestResource("aws_iam_role", "foo-lala", tags));
  }

  /**
   * Instance tags that miss a configured key or carry the wrong one fail the
   * instance entry's criteria.
   */
  lemma TestTagDecisions(rx: Regexp)
    ensures !TestConfig()["aws_instance"][0].TagsHold(rx, map["foo" := "baz"])
    ensures !TestConfig()["aws_instance"][0].TagsHold(rx, map["blub" := "bla"])
  {
    var instance := TestConfig()["aws_instance"][0];
    assert "bla" in instance.tags.value && "bla" !in map["foo" := "baz"];
    assert "foo" in instance.tags.value && "foo" !in map["blub" := "bla"];
  }

  /** The test configuration passes validation against the registry. */
  lemma TestConfigIsSupported()
    ensures Filter(TestConfig()).AllSupported(IsSupportedType)
  {
    assert Supported()[2].terraformType == "aws_instance";
    assert Supported()[15].terraformType == "aws_security_group";
    assert Supported()[17].terraformType == "aws_vpc";
    assert Supported()[21].terraformType == "aws_iam_role";
  }

  /** A configuration that adds a type outside the registry fails validation. */
  lemma UnsupportedTypeFailsValidation()
    ensures !Filter(map["aws_security_group" := [], "not_supported_type" := []]).AllSupported(IsSupportedType)
  {
    NotInTypeColumn("not_supported_type");
  }

  /** Types of the test configuration: its four types, each once. */
  method TestConfigTypes() returns (types: seq<TerraformResourceType>)
    ensures |types| == 4
    ensures "aws_security_group" in types && "aws_iam_role" in types && "aws_instance" in types
  {
    types := Filter(TestConfig()).Types();
    assert TestConfig().Keys == {"aws_iam_role", "aws_security_group", "aws_instance", "aws_vpc"};
  }

  /** Types of an empty configuration is empty. */
  method EmptyConfigTypes() returns (types: seq<TerraformResourceType>)
    ensures types == []
  {
    types := Filter(map[]).Types();
  }

  /** Validate accepts the test configuration. */
  method ValidateTestConfig() returns (err: Option<ValidationError>)
    ensures err == None
  {
    TestConfigIsSupported();
    err := Filter(TestConfig()).Validate(IsSupportedType);
  }

  /** Validate rejects a configuration with an unsupported type, naming that type. */
  method ValidateUnsupportedConfig() returns (err: Option<ValidationError>)
    ensures err == Some(UnsupportedResourceType("not_supported_type"))
  {
    UnsupportedTypeFailsValidation();
    err := Filter(map["aws_security_group" := [], "not_supported_type" := []]).Validate(IsSupportedType);
    assert IsSupportedType("aws_security_group") by {
      assert Supported()[15].terraformType == "aws_security_group";
    }
  }
}
