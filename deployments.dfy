/**
 * The deployment address book of the contract tasks
 * (packages/hardhat/tasks/utils.ts): one JSON file per network inside the
 * deployments directory, each holding a record from contract name to address.
 * The file system is a map from file path to the record its JSON text holds.
 */
module Deployments {
  import opened Wrappers

  /** The parsed content of one `<network>.json` file. */
  type Record = map<string, string>

  /** The deployment files that exist, by path. */
  type Files = map<string, Record>

  /** `getDeploymentPath`: `<dir>/<network>.json`. */
  function DeploymentPath(dir: string, network: string): (path: string)
    ensures |path| == |dir| + |network| + 6
    ensures path[..|dir| + 1] == dir + "/"
    ensures path[|dir| + 1..|path| - 5] == network
    ensures path[|path| - 5..] == ".json"
  {
    dir + "/" + network + ".json"
  }

  /** Distinct networks never share a file. */
  lemma DeploymentPathInjective(dir: string, n1: string, n2: string)
    requires DeploymentPath(dir, n1) == DeploymentPath(dir, n2)
    ensures n1 == n2
  {
  }

  /** The record stored for `network`, or the empty record when its file does not exist. */
  function RecordOf(files: Files, dir: string, network: string): (r: Record)
    ensures DeploymentPath(dir, network) !in files ==> r == map[]
    ensures DeploymentPath(dir, network) in files ==> r == files[DeploymentPath(dir, network)]
  {
    var path := DeploymentPath(dir, network);
    if path in files then files[path] else map[]
  }

  /** The files after `saveDeployment(network, contractName, address)`. */
  function Saved(files: Files, dir: string, network: string, contractName: string, address: string): (f: Files)
    ensures f.Keys == files.Keys + {DeploymentPath(dir, network)}
    ensures f[DeploymentPath(dir, network)].Keys == RecordOf(files, dir, network).Keys + {contractName}
    ensures f[DeploymentPath(dir, network)][contractName] == address
    ensures forall c :: c in RecordOf(files, dir, network) && c != contractName ==>
      f[DeploymentPath(dir, network)][c] == RecordOf(files, dir, network)[c]
    ensures forall p :: p in files && p != DeploymentPath(dir, network) ==> f[p] == files[p]
  {
    var path := DeploymentPath(dir, network);
    files[path := RecordOf(files, dir, network)[contractName := address]]
  }

  /** `getDeployment(network, contractName)`: the address, or null when the
      network's file is missing or the entry is absent or empty. */
  function Lookup(files: Files, dir: string, network: string, contractName: string): (r: Option<string>)
    ensures r.Some? <==>
      var path := DeploymentPath(dir, network);
      path in files && contractName in files[path] && files[path][contractName] != ""
    ensures r.Some? ==> r.value == files[DeploymentPath(dir, network)][contractName] && r.value != ""
  {
    var path := DeploymentPath(dir, network);
    if path !in files then None
    else if contractName in files[path] && files[path][contractName] != "" then Some(files[path][contractName])
    else None
  }

  /** Reading back what was saved gives the address, unless it is empty. */
  lemma SaveThenLookup(files: Files, dir: string, network: string, contractName: string, address: string)
    ensures Lookup(Saved(files, dir, network, contractName, address), dir, network, contractName)
      == if address == "" then None else Some(address)
  {
  }

  /** Saving touches one entry of one network's record: every other lookup,
      in this network or another, answers as before. */
  lemma SaveFrame(files: Files, dir: string, network: string, contractName: string, address: string,
                  otherNetwork: string, otherName: string)
    requires otherNetwork != network || otherName != contractName
    ensures Lookup(Saved(files, dir, network, contractName, address), dir, otherNetwork, otherName)
      == Lookup(files, dir, otherNetwork, otherName)
  {
  }

  /** The first save for a network creates its file with that one entry. */
  lemma SaveCreatesRecord(files: Files, dir: string, network: string, contractName: string, address: string)
    requires DeploymentPath(dir, network) !in files
    ensures Saved(files, dir, network, contractName, address)[DeploymentPath(dir, network)]
      == map[contractName := address]
  {
  }

  /** Saving the same entry twice leaves the files as saving it once. */
  lemma SaveIdempotent(files: Files, dir: string, network: string, contractName: string, address: string)
    ensures var once := Saved(files, dir, network, contractName, address);
      Saved(once, dir, network, contractName, address) == once
  {
    var once := Saved(files, dir, network, contractName, address);
    var path := DeploymentPath(dir, network);
    assert RecordOf(once, dir, network)[contractName := address] == once[path];
  }

  /** Without a file for the network every lookup is null. */
  lemma LookupMissingNetwork(files: Files, dir: string, network: string, contractName: string)
    requires DeploymentPath(dir, network) !in files
    ensures Lookup(files, dir, network, contractName) == None
  {
  }

  /** The deployments directory and the files in it. */
  class DeploymentStore {
    /** `DEPLOYMENTS_DIR`, fixed when the module loads. */
    const dir: string
    var files: Files

    constructor (deploymentsDir: string, existing: Files)
      ensures dir == deploymentsDir && files == existing
    {
      dir := deploymentsDir;
      files := existing;
    }

    /** `saveDeployment`: read the record (or start an empty one), set one
        entry, write the record back. */
    method SaveDeployment(network: string, contractName: string, address: string)
      modifies this`files
      ensures files == Saved(old(files), dir, network, contractName, address)
    {
      var deploymentPath := DeploymentPath(dir, network);
      var deployments: Record := map[];
      if deploymentPath in files {
        deployments := files[deploymentPath];
      }
      deployments := deployments[contractName := address];
      files := files[deploymentPath := deployments];
    }

    /** `getDeployment`. */
    method GetDeployment(network: string, contractName: string) returns (address: Option<string>)
      ensures address == Lookup(files, dir, network, contractName)
      ensures address.Some? ==> address.value != ""
    {
      var deploymentPath := DeploymentPath(dir, network);
      if deploymentPath !in files {
        return None;
      }
      var deployments := files[deploymentPath];
      if contractName in deployments && deployments[contractName] != "" {
        address := Some(deployments[contractName]);
      } else {
        address := None;
      }
    }
  }
}
