/** Protocol and printer together: what the operator stores is a document that says what the spec says. */
module Stored {
  import opened Wrappers
  import opened NodeConfigTypes
  import opened Objects
  import opened System
  import opened History
  import opened Text
  import opened DocumentLines
  import opened Reader
  import opened RoundTrip
  import opened PrintableText
  import Ready
  import CloudInit
  import AnyInput

  /** The text of a spec's document, line by line. */
  function TextOf(spec: Spec): string {
    FIRST_LINE + Glue(BodyLines(spec.files, "", spec.cloudInitCommands, spec.ntp, spec.users))
  }

  lemma RenderIsTheText(spec: Spec)
    ensures CloudInit.Render(spec) == TextOf(spec)
  {
    hide CloudInit.NodeText, BodyLines, Glue;
    DocumentGlue(spec.files, "", spec.cloudInitCommands, spec.ntp, spec.users);
  }

  /** What `CreateNodeInitConfig` asks of `NewNode`: for every spec, readable or not, the document of a fresh input, whose
      own list of files is empty. */
  method NewNodeFor(spec: Spec) returns (data: string)
    ensures data == FIRST_LINE + Glue(BodyLines(spec.files, "", spec.cloudInitCommands, spec.ntp, spec.users))
  {
    hide CloudInit.NodeText, BodyLines, Glue;
    var input := new CloudInit.NodeInput(spec.cloudInitCommands, spec.files, spec.ntp, spec.users);
    data := input.NewNode();
    assert [] + spec.files == spec.files;
    DocumentGlue(spec.files, "", spec.cloudInitCommands, spec.ntp, spec.users);
  }

  /** The document that a spec asks for; the kubeadm entry has no join configuration. */
  function Wanted(spec: Spec): Document {
    DocumentBack(spec.files, "", spec.cloudInitCommands, spec.ntp, spec.users)
  }

  /** Every scalar of the spec can be printed and read back. */
  predicate Readable(spec: Spec) {
    Fit(spec.files, "", spec.ntp, spec.users) && PrintableInput(spec.files, "", spec.ntp, spec.users)
  }

  lemma RenderedIsWanted(spec: Spec)
    ensures ReadDocument(CloudInit.Render(spec)) == Some(Wanted(spec)) <==> Readable(spec)
  {
    hide ReadDocument, CloudInit.NodeText, DocumentBack, Fit, PrintableInput;
    AnyInput.DocumentRoundTrip(spec.files, "", spec.cloudInitCommands, spec.ntp, spec.users);
  }

  /** In every execution: the cloud-init Secret that a run creates holds one value, the text of the spec that the run
      fetched; and reading that value gives the document of that spec exactly when the spec is readable. */
  lemma StoredIsWanted(s: System, actions: seq<Action>, i: nat, id: RunId)
    requires s.runs == map[] && (forall spec :: s.render(spec) == CloudInit.Render(spec)) && Calls(s, actions, i, id)
    requires id.key !in At(s, actions, i).cluster.secrets && id.key in At(s, actions, i + 1).cluster.secrets
    ensures exists f: nat, g: NodeConfig ::
              && f < i && Fetches(s, actions, f, id, g)
              && var data := At(s, actions, i + 1).cluster.secrets[id.key].data;
                 data == map["value" := FIRST_LINE + Glue(BodyLines(g.spec.files, "", g.spec.cloudInitCommands, g.spec.ntp, g.spec.users))]
                 && (ReadDocument(data["value"]) == Some(Wanted(g.spec)) <==> Readable(g.spec))
  {
    hide BodyLines, Glue;
    hide At, Fetches, ReadDocument, CloudInit.Render, Wanted, Readable;
    Ready.StoredDataIsRendered(s, actions, i, id, id.key);
    var secret := At(s, actions, i + 1).cluster.secrets[id.key];
    var f: nat, g: NodeConfig :| f < i && Fetches(s, actions, f, id, g) && Ready.HoldsOwnData(s, id.key, id.key, g, secret);
    BmcKeyDiffers(id.key);
    RenderedIsWanted(g.spec);
    RenderIsTheText(g.spec);
    assert secret.data == map["value" := CloudInit.Render(g.spec)];
  }
}
