/** The records of `pkg/types`, each with the JSON layout its struct tags give it and
    the conversions between the record and the generic Go value the codec works on. */
module Types {
  import opened Wrappers
  import opened GoJson

  /** Go's `uint` on a 64-bit platform. */
  type uint64 = n: nat | n < UintLimit

  datatype Account = Account(id: uint64, name: string, email: string, token: string, companyName: string)

  datatype App = App(id: uint64, appName: string, accessUrl: string)

  /** The contents of `hostgo.yml`. */
  datatype Config = Config(appName: string)

  datatype Env = Env(key: string, value: string)

  datatype DeploymentResult = DeploymentResult(error: bool, message: string, accessUrl: string, version: string)

  const AccountShape: Shape := StructShape([
    Field("id", UintShape), Field("name", StringShape), Field("email", StringShape),
    Field("account_token", StringShape), Field("company_name", StringShape)])

  const AppShape: Shape := StructShape([
    Field("id", UintShape), Field("app_name", StringShape), Field("access_url", StringShape)])

  const EnvShape: Shape := StructShape([Field("key", StringShape), Field("value", StringShape)])

  /** `Data` carries no tag, so it is written under its Go name. */
  const DeploymentResultShape: Shape := StructShape([
    Field("error", BoolShape), Field("message", StringShape),
    Field("Data", StructShape([Field("access_url", StringShape), Field("version", StringShape)]))])

  // Records to values and back.

  function AccountValue(a: Account): (v: Value)
    ensures Conforms(v, AccountShape)
  {
    StructVal([UintVal(a.id), StringVal(a.name), StringVal(a.email), StringVal(a.token), StringVal(a.companyName)])
  }

  function AccountOf(v: Value): Account
    requires Conforms(v, AccountShape)
  {
    Account(v.fields[0].n, v.fields[1].s, v.fields[2].s, v.fields[3].s, v.fields[4].s)
  }

  function AppValue(a: App): (v: Value)
    ensures Conforms(v, AppShape)
  {
    StructVal([UintVal(a.id), StringVal(a.appName), StringVal(a.accessUrl)])
  }

  function AppOf(v: Value): App
    requires Conforms(v, AppShape)
  {
    App(v.fields[0].n, v.fields[1].s, v.fields[2].s)
  }

  function EnvValue(e: Env): (v: Value)
    ensures Conforms(v, EnvShape)
  {
    StructVal([StringVal(e.key), StringVal(e.value)])
  }

  function EnvsValue(es: seq<Env>): (v: Value)
    ensures Conforms(v, SliceShape(EnvShape))
    ensures v.SliceVal? && |v.elems| == |es|
  {
    SliceVal(seq(|es|, i requires 0 <= i < |es| => EnvValue(es[i])))
  }

  function DeploymentResultOf(v: Value): DeploymentResult
    requires Conforms(v, DeploymentResultShape)
  {
    DeploymentResult(v.fields[0].b, v.fields[1].s, v.fields[2].fields[0].s, v.fields[2].fields[1].s)
  }

  function DeploymentResultValue(r: DeploymentResult): (v: Value)
    ensures Conforms(v, DeploymentResultShape)
  {
    StructVal([BoolVal(r.error), StringVal(r.message), StructVal([StringVal(r.accessUrl), StringVal(r.version)])])
  }

  /** Every account is read back from its value, and every value of the account
      type is the value of the account read from it. */
  lemma AccountValueOf(a: Account, v: Value)
    requires Conforms(v, AccountShape)
    ensures AccountOf(AccountValue(a)) == a
    ensures AccountValue(AccountOf(v)) == v
  {
    assert v.fields == [v.fields[0], v.fields[1], v.fields[2], v.fields[3], v.fields[4]];
  }

  lemma AppValueOf(a: App, v: Value)
    requires Conforms(v, AppShape)
    ensures AppOf(AppValue(a)) == a
    ensures AppValue(AppOf(v)) == v
  {
    assert v.fields == [v.fields[0], v.fields[1], v.fields[2]];
  }

  lemma DeploymentResultValueOf(r: DeploymentResult, v: Value)
    requires Conforms(v, DeploymentResultShape)
    ensures DeploymentResultOf(DeploymentResultValue(r)) == r
    ensures DeploymentResultValue(DeploymentResultOf(v)) == v
  {
    assert v.fields == [v.fields[0], v.fields[1], v.fields[2]];
    assert v.fields[2].fields == [v.fields[2].fields[0], v.fields[2].fields[1]];
  }

  /** The record types have well-formed JSON layouts. */
  lemma ShapesWellFormed()
    ensures WellFormed(AccountShape) && WellFormed(AppShape) && WellFormed(EnvShape)
    ensures WellFormed(DeploymentResultShape) && WellFormed(SliceShape(EnvShape))
  {
    AccountShapeWellFormed();
    AppShapeWellFormed();
    EnvShapeWellFormed();
    DeploymentResultShapeWellFormed();
  }

  lemma AccountShapeWellFormed()
    ensures WellFormed(AccountShape)
  {
  }

  lemma AppShapeWellFormed()
    ensures WellFormed(AppShape)
  {
  }

  lemma EnvShapeWellFormed()
    ensures WellFormed(EnvShape) && WellFormed(SliceShape(EnvShape))
  {
  }

  lemma DeploymentResultShapeWellFormed()
    ensures WellFormed(DeploymentResultShape)
  {
  }
}
