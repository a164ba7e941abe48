/** The secrets of SAREs (internal/serviceaccount/secret_manager.go). */
module SecretManagers {
  import opened Wrappers
  import opened Api

  class SecretManager {
    const client: Client

    constructor (client: Client)
      ensures this.client == client
    {
      this.client := client;
    }

    /** A secret that is there but not controlled by the SARE is a conflict. */
    method Exists(sare: Sare, reply: Reply) returns (present: bool, secretName: Name, error: Option<Error>)
      ensures secretName == ResolveSecretName(sare)
      ensures var ref := sare.spec.secretRef;
        secretName == if ref == None || ref == Some("") then sare.name else ref.value
      ensures !reply.ok ==> error == Some(CallFailed(reply.text))
      ensures reply.ok ==> (error == Some(SecretConflict(secretName)) <==>
                              secretName in client.store.secrets
                                && client.store.secrets[secretName].owner != Some(sare.uid))
      ensures reply.ok && error.None? ==> (present <==> secretName in client.store.secrets)
      ensures present ==> error.None? && Controls(client.store, sare.uid, secretName)
      ensures error.Some? ==> error.value == SecretConflict(secretName) || !reply.ok
    {
      secretName := ResolveSecretName(sare);
      if !reply.ok {
        return false, secretName, Some(CallFailed(reply.text));
      }
      if secretName !in client.store.secrets {
        return false, secretName, None;
      }
      if client.store.secrets[secretName].owner == Some(sare.uid) {
        return true, secretName, None;
      }
      return false, secretName, Some(SecretConflict(secretName));
    }

    /** Data that is there already stays unless it is overridden; another one's secret is left alone. */
    method CreateOrUpdate(sare: Sare, credentials: Creds, reply: Reply) returns (secretName: Name, error: Option<Error>)
      modifies client
      ensures secretName == ResolveSecretName(sare)
      ensures var ref := sare.spec.secretRef;
        secretName == if ref == None || ref == Some("") then sare.name else ref.value
      ensures var c := old(client.store);
        var conflict := secretName in c.secrets && !Controls(c, sare.uid, secretName);
        && error == (if !reply.ok then Some(CallFailed(reply.text))
                     else if conflict then Some(SecretConflict(secretName))
                     else None)
        && (error.Some? ==> client.store == c)
        && (error.None? ==>
              && client.store == c.(secrets := client.store.secrets)
              && Controls(client.store, sare.uid, secretName)
              && client.store.secrets == c.secrets[secretName := client.store.secrets[secretName]])
        && (error.None? ==>
              client.store.secrets[secretName].data ==
              (if secretName in c.secrets then c.secrets[secretName].data + credentials else credentials))
        && (error.None? ==> client.store == WriteSecret(c, secretName, sare.uid, credentials))
    {
      secretName := ResolveSecretName(sare);
      if !reply.ok {
        return secretName, Some(CallFailed(reply.text));
      }
      if secretName in client.store.secrets {
        var secret := client.store.secrets[secretName];
        if secret.owner != Some(sare.uid) {
          return secretName, Some(SecretConflict(secretName));
        }
        secret := secret.(data := secret.data + credentials);
        client.store := client.store.(secrets := client.store.secrets[secretName := secret]);
      } else {
        client.store := client.store.(secrets :=
          client.store.secrets[secretName := Secret(Some(sare.uid), credentials)]);
      }
      return secretName, None;
    }

    /** There is no owner check, and a secret that is missing is no error. */
    method Delete(sare: Sare, reply: Reply) returns (error: Option<Error>)
      modifies client
      ensures error == if reply.ok then None else Some(CallFailed(reply.text))
      ensures client.store == if reply.ok then DeleteSecret(old(client.store), ResolveSecretName(sare))
          else old(client.store)
      ensures var c, ref := old(client.store), sare.spec.secretRef;
        reply.ok ==>
          client.store == c.(secrets := c.secrets - {if ref == None || ref == Some("") then sare.name else ref.value})
    {
      if !reply.ok {
        return Some(CallFailed(reply.text));
      }
      client.store := client.store.(secrets := client.store.secrets - {ResolveSecretName(sare)});
      return None;
    }
  }
}
