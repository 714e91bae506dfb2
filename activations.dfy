/**
 * Name-keyed resolution of a layer's weight initialiser and activation.
 *
 * The network module looks both names up in its own global namespace and
 * turns every failure of the lookup or of the call into a configuration
 * error. The only names in that namespace for which the call succeeds are
 * the two imported initialisers and the four imported activations, so the
 * lookup is modelled as a fixed table. The activation functions themselves
 * live in a module that is not part of this model: they are supplied as a
 * `Catalogue` of (value, derivative) pairs.
 */
module Activations {

  /** An activation function and its derivative, both applied entrywise. */
  datatype Activation = Activation(apply: real -> real, derivative: real -> real)

  /** The four activations imported by name. */
  datatype Catalogue = Catalogue(
    identity: Activation,
    sigmoid: Activation,
    relu: Activation,
    leakyRelu: Activation)

  /** The two imported weight initialisers. What they draw is random and is
      handed to the layer constructors as a parameter. */
  datatype InitScheme = Xavier | Kaiming

  datatype ConfigError =
    | UnsupportedActivation(activation: string)
    | UnsupportedWeightInit(weightInit: string)

  datatype Result<T> = Ok(value: T) | Err(error: ConfigError)

  const ActivationNames: set<string> := {"identity", "sigmoid", "relu", "leaky_relu"}
  const InitNames: set<string> := {"xavier", "kaiming"}

  /** `set_activation`: the activation called `name`, or a configuration error. */
  function ResolveActivation(name: string, catalogue: Catalogue): (r: Result<Activation>)
    ensures r.Ok? <==> name in ActivationNames
    ensures r.Err? ==> r.error == UnsupportedActivation(name)
    ensures name == "identity" ==> r == Ok(catalogue.identity)
    ensures name == "sigmoid" ==> r == Ok(catalogue.sigmoid)
    ensures name == "relu" ==> r == Ok(catalogue.relu)
    ensures name == "leaky_relu" ==> r == Ok(catalogue.leakyRelu)
  {
    if name == "identity" then Ok(catalogue.identity)
    else if name == "sigmoid" then Ok(catalogue.sigmoid)
    else if name == "relu" then Ok(catalogue.relu)
    else if name == "leaky_relu" then Ok(catalogue.leakyRelu)
    else Err(UnsupportedActivation(name))
  }

  /** `set_weights_and_biases`: the initialiser called `name`, or a configuration error. */
  function ResolveInit(name: string): (r: Result<InitScheme>)
    ensures r.Ok? <==> name in InitNames
    ensures r.Err? ==> r.error == UnsupportedWeightInit(name)
  {
    if name == "xavier" then Ok(Xavier)
    else if name == "kaiming" then Ok(Kaiming)
    else Err(UnsupportedWeightInit(name))
  }

  /** What a layer constructor resolves, in its order: the initialiser first,
      then the activation. */
  function ResolveLayer(weightInit: string, activation: string, catalogue: Catalogue): (r: Result<(InitScheme, Activation)>)
    ensures r.Ok? <==> weightInit in InitNames && activation in ActivationNames
    ensures weightInit !in InitNames ==> r == Err(UnsupportedWeightInit(weightInit))
    ensures weightInit in InitNames && activation !in ActivationNames ==>
      r == Err(UnsupportedActivation(activation))
    ensures r.Ok? ==> r.value.0 == (if weightInit == "xavier" then Xavier else Kaiming)
    ensures r.Ok? ==> r.value.1 == ResolveActivation(activation, catalogue).value
  {
    match ResolveInit(weightInit)
    case Err(e) => Err(e)
    case Ok(scheme) =>
      match ResolveActivation(activation, catalogue)
      case Err(e) => Err(e)
      case Ok(f) => Ok((scheme, f))
  }

  /** The network builds its Hidden layers with ("xavier", "relu") and its
      Output layer with ("xavier", "identity"): construction never fails. */
  lemma NetworkConfigurationsResolve(catalogue: Catalogue)
    ensures ResolveLayer("xavier", "relu", catalogue) == Ok((Xavier, catalogue.relu))
    ensures ResolveLayer("xavier", "identity", catalogue) == Ok((Xavier, catalogue.identity))
  {
  }
}
