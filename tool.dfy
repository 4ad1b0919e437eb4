/** The agent-side `Tool` record: built from a callable through the schema
    compiler, and turned back into the same function-schema envelope. */
module AgentTool {
  import opened Common
  import opened FunctionSchema

  /** The record of one tool call: its id, the tool's name, the arguments it
      was called with, and what it returned. */
  datatype ToolCallResult = ToolCallResult(id: string, name: string, arguments: map<string, Value>, result: Value)

  /** A tool: the schema's name, description and parameters, and the
      callable invoked when the model calls the tool. */
  datatype Tool = Tool(
    name: string,
    description: Option<string>,
    parameters: ParametersSchema,
    onToolCall: Callable)
  {
    /** `Tool.from_callable`: compile the callable and copy the `function`
        part of its schema. */
    static function FromCallable(c: Callable): (t: Tool)
      ensures t.onToolCall == c
    {
      var schema := SchemaOf(c);
      Tool(schema.fn.name, schema.fn.description, schema.fn.parameters, c)
    }

    /** `Tool.to_function_schema` */
    function ToFunctionSchema(): (s: ToolSchema)
      ensures s.typeTag == "function"
      ensures s.fn.name == name && s.fn.description == description && s.fn.parameters == parameters
    {
      ToolSchema("function", FunctionSpec(name, description, parameters))
    }
  }

  /** `from_callable` copies name, description and parameters verbatim from
      the compiled schema, and the name is the callable's own. */
  lemma FromCallableCopiesSchema(c: Callable)
    ensures Tool.FromCallable(c).name == SchemaOf(c).fn.name == c.name
    ensures Tool.FromCallable(c).description == SchemaOf(c).fn.description
    ensures Tool.FromCallable(c).parameters == SchemaOf(c).fn.parameters
  {
    SchemaEnvelope(c);
  }

  /** Round trip: the schema rebuilt from a tool made from `c` is the schema
      compiled for `c`. */
  lemma RoundTrip(c: Callable)
    ensures Tool.FromCallable(c).ToFunctionSchema() == SchemaOf(c)
  {
    SchemaEnvelope(c);
  }

  /** The schema a tool produces holds all of the tool's data except the
      callable: reading the fields back out of it gives the same tool. */
  lemma ToFunctionSchemaKeepsFields(t: Tool)
    ensures var s := t.ToFunctionSchema();
      Tool(s.fn.name, s.fn.description, s.fn.parameters, t.onToolCall) == t
  {
  }
}
